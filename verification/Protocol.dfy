/** The completion protocol of the IOCP server (GT_IOCPWrapper) as a state machine.

    A state holds the resource manager's view, the headers of the buffers, the buffer
    cache of the listening context and the operations outstanding in the kernel.  One
    step is one completion handler, one sweep, or one posting loop iteration; what the
    operating system and the buffer pool decide is recorded in the step.
  */
module Protocol {
  import opened BufferPool
  import Sockets = SocketPool
  import opened SocketContexts
  import opened ResourceManagers

  datatype Kind = Null | Accept | Read | Write | Exit

  // The header of a buffer: io_event_type_ and io_socket_ptr_.
  datatype Tag = Tag(kind: Kind, sock: nat)

  // An outstanding operation: the completion key and buffer its packet will carry.
  // kind is what it was posted as; no handler looks at it.
  datatype Op = Op(key: nat, buf: nat, kind: Kind)

  // The completion key of the listening socket, never the id of a registered context.
  const LISTEN: nat := 0

  // lost: accept slots that were not re-posted;  slots: accept slots opened at start;
  // waiting: is_need_continue_wait_completion_port_status_
  datatype State = State(res: Resources, tags: map<nat, Tag>, listen: set<nat>,
                         pending: map<nat, Op>, nextOp: nat, slots: nat, lost: nat, waiting: bool)

  // ----- what a handler's environment decides -----

  // Posting a read: the buffer obtained, whether WSARecv accepted it, and, if not, whether it was recycled.
  datatype ReadPost = ReadPost(get: Get, posted: bool, recycle: bool)

  // Taking over an accepted socket: the clock, whether it was bound to the port, and the first read.
  datatype Arrival = Arrival(now: int, bound: bool, read: ReadPost)

  // One try at posting an accept.
  datatype Try = Try(get: Get, sock: nat, posted: bool, recycle: bool)

  // Everything a completion handler may need; a branch uses its own part.
  datatype Choices = Choices(arrival: Arrival, first: Try, second: Try, again: ReadPost,
                             now: int, recycle: bool, kept: set<nat>)

  // ----- the building blocks -----

  function Post(s: State, key: nat, b: nat, kind: Kind): State {
    s.(pending := s.pending[s.nextOp := Op(key, b, kind)], nextOp := s.nextOp + 1)
  }

  function ReleaseBuffer(s: State, b: nat, recycle: bool): State {
    s.(res := s.res.(buf := Release(s.res.buf, b, recycle)))
  }

  function SetCache(s: State, k: nat, cache: set<nat>): State
    requires k in s.res.ctxs
  {
    s.(res := s.res.(ctxs := s.res.ctxs[k := s.res.ctxs[k].(cache := cache)]))
  }

  // PostReadRequestEvent_: a refused read gives its buffer back but leaves it in the context's cache.
  function PostRead(s: State, k: nat, b: nat, posted: bool, recycle: bool): State {
    if posted then Post(s, k, b, Read) else ReleaseBuffer(s, b, recycle)
  }

  // A buffer is obtained, marked for reading and entered in the context's cache.
  function ArmRead(s: State, k: nat, g: Get): State
    requires k in s.res.ctxs
  {
    var s1 := s.(res := s.res.(buf := DoGet(s.res.buf, g)), tags := s.tags[g.b := Tag(Read, s.res.ctxs[k].sock)]);
    SetCache(s1, k, s1.res.ctxs[k].cache + {g.b})
  }

  // ProcessAcceptEvent_
  function Arrive(s: State, b: nat, a: Arrival): State
    requires b in s.tags
  {
    var s1 := s.(res := Create(s.res, s.tags[b].sock, AcceptedSocket, a.now));
    var s2 := ArmRead(s1, s.res.next, a.read.get);
    if a.bound then PostRead(s2, s.res.next, a.read.get.b, a.read.posted, a.read.recycle) else s2
  }

  // PostAnotherReadRequest_
  function ReadAgain(s: State, k: nat, r: ReadPost): State
    requires k in s.res.ctxs
  {
    PostRead(ArmRead(s, k, r.get), k, r.get.b, r.posted, r.recycle)
  }

  predicate CanTry(s: State, t: Try) {
    CanGet(s.res.buf, t.get) && Sockets.CanTake(s.res.sk, t.sock)
  }

  // A listening-side buffer is obtained with a pooled socket and entered in the listening context's cache.
  function ArmListen(s: State, g: Get, sock: nat, kind: Kind): State {
    s.(res := s.res.(buf := DoGet(s.res.buf, g), sk := Sockets.Take(s.res.sk, sock)),
       tags := s.tags[g.b := Tag(kind, sock)], listen := s.listen + {g.b})
  }

  function TryAccept(s: State, t: Try): State {
    var s1 := ArmListen(s, t.get, t.sock, Accept);
    if t.posted then Post(s1, LISTEN, t.get.b, Accept) else ReleaseBuffer(s1, t.get.b, t.recycle)
  }

  predicate CanPostAccept(s: State, first: Try, second: Try) {
    CanTry(s, first) && (!first.posted ==> CanTry(TryAccept(s, first), second))
  }

  // PostAnotherAcceptEvent_: two tries, after which the slot is lost.
  function PostAccept(s: State, first: Try, second: Try): State {
    var s1 := TryAccept(s, first);
    if first.posted then s1
    else
      var s2 := TryAccept(s1, second);
      if second.posted then s2 else s2.(lost := s2.lost + 1)
  }

  function PostExit(s: State, g: Get, sock: nat): State {
    Post(ArmListen(s, g, sock, Exit), LISTEN, g.b, Exit)
  }

  function ReleaseListenBuffer(s: State, b: nat, recycle: bool): State {
    ReleaseBuffer(s, b, recycle).(listen := s.listen - {b})
  }

  function ReleaseContextBuffer(s: State, k: nat, b: nat, recycle: bool): State
    requires k in s.res.ctxs
  {
    SetCache(ReleaseBuffer(s, b, recycle), k, s.res.ctxs[k].cache - {b})
  }

  function ResetTimer(s: State, k: nat, now: int): State
    requires k in s.res.ctxs
  {
    s.(res := s.res.(ctxs := s.res.ctxs[k := s.res.ctxs[k].(timer := now)]))
  }

  // ----- the completion handler -----

  datatype Branch = Dropped | GotExit | GotAccept | GotBytes | Written | ClientGone | Failed

  // The header found in the buffer of a packet.
  function Header(s: State, op: Op): Kind {
    if op.buf in s.tags then s.tags[op.buf].kind else Null
  }

  // What a packet is taken for: what the header says, if the buffer is in the cache in which a
  // buffer with that header is looked up; otherwise the packet is dropped.
  function ReadAs(s: State, op: Op): Kind {
    var kind := Header(s, op);
    var found :=
      if kind == Accept || kind == Exit then op.buf in s.listen
      else op.key in s.res.ctxs && op.buf in s.res.ctxs[op.key].cache;
    if found then kind else Null
  }

  // The branch GetCompletionPortEventStatus takes for a packet: decided by the header of
  // the buffer, the caches, the dequeue's success and the byte count, in the code's order.
  function Route(s: State, op: Op, ok: bool, bytes: nat): Branch {
    var kind := ReadAs(s, op);
    if kind == Null then Dropped
    else if ok && kind == Exit then GotExit
    else if ok && kind == Accept then GotAccept
    else if ok && kind == Read && bytes != 0 then GotBytes
    else if ok && kind == Write then Written
    else if kind == Read && bytes == 0 then ClientGone
    else Failed
  }

  predicate CanComplete(s: State, id: nat, ok: bool, bytes: nat, c: Choices) {
    id in s.pending &&
    var op := s.pending[id];
    var s0 := s.(pending := s.pending - {id});
    match Route(s, op, ok, bytes)
    case GotAccept =>
      && CanGet(s0.res.buf, c.arrival.read.get)
      && CanPostAccept(Arrive(s0, op.buf, c.arrival), c.first, c.second)
    case GotBytes => CanGet(s0.res.buf, c.again.get)
    case _ => true
  }

  // GetCompletionPortEventStatus from the dequeued packet on.
  function Complete(s: State, id: nat, ok: bool, bytes: nat, c: Choices): State
    requires id in s.pending
  {
    var op := s.pending[id];
    var s0 := s.(pending := s.pending - {id});
    match Route(s, op, ok, bytes)
    case Dropped => s0
    case GotExit => s0.(waiting := false)
    case GotAccept =>
      ReleaseListenBuffer(PostAccept(Arrive(s0, op.buf, c.arrival), c.first, c.second), op.buf, c.recycle)
    case GotBytes =>
      ReleaseContextBuffer(ReadAgain(ResetTimer(s0, op.key, c.now), op.key, c.again), op.key, op.buf, c.recycle)
    case Written => ReleaseContextBuffer(ResetTimer(s0, op.key, c.now), op.key, op.buf, c.recycle)
    case ClientGone => s0.(res := ReleaseContext(s0.res, op.key, c.kept))
    case Failed =>
      var s1 := ReleaseBuffer(s0, op.buf, c.recycle);
      if s.tags[op.buf].kind == Accept then s1.(lost := s1.lost + 1) else s1
  }

  // ----- steps and runs -----

  datatype Step =
    | OpenSlot(first: Try, second: Try)
    | Start
    | Completion(id: nat, ok: bool, bytes: nat, c: Choices)
    | SweepAll(visits: seq<Visit>)
    | QueueExit(get: Get, sock: nat)

  ghost predicate Enabled(s: State, step: Step) {
    match step
    case OpenSlot(first, second) => CanPostAccept(s, first, second)
    case Start => true
    case Completion(id, ok, bytes, c) => CanComplete(s, id, ok, bytes, c)
    case SweepAll(visits) => Walks(s.res.addrs, visits)
    case QueueExit(get, sock) => CanGet(s.res.buf, get) && Sockets.CanTake(s.res.sk, sock)
  }

  ghost function Apply(s: State, step: Step): State
    requires Enabled(s, step)
  {
    match step
    case OpenSlot(first, second) => PostAccept(s, first, second).(slots := s.slots + 1)
    case Start => s.(waiting := true)
    case Completion(id, ok, bytes, c) => Complete(s, id, ok, bytes, c)
    case SweepAll(visits) => s.(res := Sweep(s.res, visits))
    case QueueExit(get, sock) => PostExit(s, get, sock)
  }

  // At least one buffer pre-allocated, nothing handed out, no context, no operation.
  ghost predicate Init(s: State) {
    && Bounded(s.res.buf) && s.res.buf.free != {} && s.res.buf.inUse == {}
    && Sockets.Accounts(s.res.sk) && s.res.sk.handed == {} && s.res.sk.closed == multiset{}
    && s.res.ctxs == map[] && s.res.addrs == {} && 0 < s.res.next
    && s.tags == map[] && s.listen == {} && s.pending == map[] && s.slots == 0 && s.lost == 0
  }

  ghost predicate Legal(s: State, run: seq<Step>)
    decreases run, 0
  {
    run == [] || (Legal(s, run[..|run| - 1]) && Enabled(Replay(s, run[..|run| - 1]), run[|run| - 1]))
  }

  // The state a run leads to.
  ghost function Replay(s: State, run: seq<Step>): State
    requires Legal(s, run)
    decreases run, 1
  {
    if run == [] then s else Apply(Replay(s, run[..|run| - 1]), run[|run| - 1])
  }

  // The run is one of legal steps from an initialized server to state s.
  ghost predicate Leads(start: State, run: seq<Step>, s: State) {
    Init(start) && Legal(start, run) && s == Replay(start, run)
  }

  lemma Extend(start: State, run: seq<Step>, s: State, step: Step)
    requires Leads(start, run, s) && Enabled(s, step)
    ensures Leads(start, run + [step], Apply(s, step))
  {
    assert (run + [step])[..|run + [step]| - 1] == run;
  }

  lemma ExtendAt(start: State, run: seq<Step>, i: nat, s: State)
    requires i < |run| && Leads(start, run[..i], s) && Enabled(s, run[i])
    ensures Leads(start, run[..i + 1], Apply(s, run[i]))
  {
    hide Leads, Enabled, Apply;
    Extend(start, run[..i], s, run[i]);
    assert run[..i + 1] == run[..i] + [run[i]];
  }
}
