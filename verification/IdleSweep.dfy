/** The idle sweep over whole runs: two strikes and out. */
module IdleSweep {
  import opened BufferPool
  import Sockets = SocketPool
  import opened SocketContexts
  import opened ResourceManagers
  import opened Protocol
  import opened Lifecycle

  // Step n of the run is a sweep that found connection k over the idle limit.
  ghost predicate FoundIdle(s: State, run: seq<Step>, n: nat, k: nat) {
    n < |run| && run[n].SweepAll? && Legal(s, run[..n]) && SeenIdle(Replay(s, run[..n]).res, run[n].visits, k)
  }

  ghost predicate SeenIdle(r: Resources, visits: seq<Visit>, k: nat) {
    k in r.ctxs && exists v :: v in visits && v.key == k && Expired(r.ctxs[k], v.now, r.limit)
  }

  lemma FoundEarlier(s: State, run: seq<Step>, m: nat, n: nat, k: nat)
    requires m <= |run| && FoundIdle(s, run[..m], n, k)
    ensures FoundIdle(s, run, n, k)
  {
    assert run[..m][..n] == run[..n];
  }

  // A handler leaves the check count of the connections it finds, and starts a new one's at 1.
  ghost predicate SameChecks(ctxs: map<nat, Context>, ctxs': map<nat, Context>) {
    forall k | k in ctxs' :: ctxs'[k].checks == if k in ctxs then ctxs[k].checks else 1
  }

  lemma ArriveChecks(s: State, b: nat, a: Arrival)
    requires Base(s) && b in s.tags
    ensures SameChecks(s.res.ctxs, Arrive(s, b, a).res.ctxs)
  {
    hide OneReadEach, Headers, Allocated, Sockets.Accounts, DoGet, Release;
  }

  lemma CompleteChecks(s: State, id: nat, ok: bool, bytes: nat, c: Choices)
    requires Base(s) && CanComplete(s, id, ok, bytes, c)
    ensures SameChecks(s.res.ctxs, Complete(s, id, ok, bytes, c).res.ctxs)
  {
    hide OneReadEach, Headers, Allocated, Sockets.Accounts, Arrive, PostAccept, CanPostAccept, DoGet, CanGet, ReleaseAll;
    match Route(s, s.pending[id], ok, bytes)
    case GotAccept =>
      var s0 := s.(pending := s.pending - {id});
      ConsumeBase(s, id);
      ArriveChecks(s0, s.pending[id].buf, c.arrival);
      PostAcceptLeaves(Arrive(s0, s.pending[id].buf, c.arrival), c.first, c.second);
    case _ =>
  }

  lemma ReadRestartsTimer(s: State, id: nat, bytes: nat, c: Choices)
    requires Base(s) && CanComplete(s, id, true, bytes, c) && Route(s, s.pending[id], true, bytes) == GotBytes
    ensures var k, s' := s.pending[id].key, Complete(s, id, true, bytes, c);
            && k in s.res.ctxs && k in s'.res.ctxs && s'.res.limit == s.res.limit
            && s'.res.ctxs[k].timer == c.now && s'.res.ctxs[k].checks == s.res.ctxs[k].checks
            && s'.res.ctxs[k].kind == AcceptedSocket
  {
    hide OneReadEach, Headers, Allocated;
  }

  /** Activity does not wipe out a strike: after a read, the next sweep removes the connection if and
      only if it finds it idle for longer than the limit since that read and an earlier sweep had
      found it idle before the read. */
  lemma ActivityKeepsStrike(s: State, id: nat, bytes: nat, c: Choices, visits: seq<Visit>, v: Visit)
    requires Base(s) && CanComplete(s, id, true, bytes, c) && Route(s, s.pending[id], true, bytes) == GotBytes
    requires Walks(Complete(s, id, true, bytes, c).res.addrs, visits) && v in visits && v.key == s.pending[id].key
    ensures v.key in s.res.ctxs
    ensures v.key !in Sweep(Complete(s, id, true, bytes, c).res, visits).ctxs
       <==> v.now - c.now > s.res.limit && s.res.ctxs[v.key].checks == 2
  {
    hide OneReadEach, Headers, Allocated, Complete;
    ReadRestartsTimer(s, id, bytes, c);
    CompleteBase(s, id, true, bytes, c);
    SweepIsExact(Complete(s, id, true, bytes, c).res, visits);
  }

  // ----- the timer -----

  // The clock reading a step makes for connection k, if it is accepted or heard from in it.
  ghost function Heard(s: State, step: Step, k: nat): Option<int>
    requires Enabled(s, step)
  {
    match step
    case Completion(id, ok, bytes, c) =>
      (match Route(s, s.pending[id], ok, bytes)
       case GotAccept => if k == s.res.next then Some(c.arrival.now) else None
       case GotBytes => if k == s.pending[id].key then Some(c.now) else None
       case _ => None)
    case _ => None
  }

  datatype Option<T> = None | Some(value: T)

  // Connection k of ctxs' was not there before and heard now, or it has its timer from before or from now.
  ghost predicate Timed(ctxs: map<nat, Context>, ctxs': map<nat, Context>, k: nat, heard: Option<int>) {
    k in ctxs' ==>
      match heard
      case Some(now) => ctxs'[k].timer == now
      case None => k in ctxs && ctxs'[k].timer == ctxs[k].timer
  }

  lemma ArriveTimed(s: State, b: nat, a: Arrival, k: nat)
    requires b in s.tags && s.res.next !in s.res.ctxs
    ensures Timed(s.res.ctxs, Arrive(s, b, a).res.ctxs, k, if k == s.res.next then Some(a.now) else None)
  {
    hide DoGet, Release;
  }

  lemma CompleteTimed(s: State, id: nat, ok: bool, bytes: nat, c: Choices, k: nat)
    requires Base(s) && CanComplete(s, id, ok, bytes, c)
    ensures Timed(s.res.ctxs, Complete(s, id, ok, bytes, c).res.ctxs, k, Heard(s, Completion(id, ok, bytes, c), k))
  {
    hide OneReadEach, Allocated, Sockets.Accounts, Arrive, PostAccept, CanPostAccept, DoGet, CanGet, ReleaseAll;
    if Route(s, s.pending[id], ok, bytes) == GotAccept {
      var s0 := s.(pending := s.pending - {id});
      ArriveTimed(s0, s.pending[id].buf, c.arrival, k);
      PostAcceptLeaves(Arrive(s0, s.pending[id].buf, c.arrival), c.first, c.second);
    }
  }

  lemma StepTimed(s: State, step: Step, k: nat)
    requires Base(s) && Enabled(s, step)
    ensures Timed(s.res.ctxs, Apply(s, step).res.ctxs, k, Heard(s, step, k))
  {
    hide OneReadEach, Headers, Allocated, Sockets.Accounts, PostAccept, CanPostAccept, Complete;
    match step
    case OpenSlot(first, second) => PostAcceptLeaves(s, first, second);
    case Completion(id, ok, bytes, c) => CompleteTimed(s, id, ok, bytes, c, k);
    case SweepAll(visits) =>
      SweepIsExact(s.res, visits);
      if k in Sweep(s.res, visits).ctxs { var n :| 0 <= n < |visits| && visits[n].key == k; }
    case _ =>
  }

  // The clock reading made when connection k was last heard from.
  ghost function LastHeard(s: State, run: seq<Step>, k: nat): int
    requires Legal(s, run)
  {
    if run == [] then 0
    else
      var before := run[..|run| - 1];
      match Heard(Replay(s, before), run[|run| - 1], k)
      case Some(now) => now
      case None => LastHeard(s, before, k)
  }

  /** The idle time of a connection counts from when it was accepted or last read from, whichever is
      later: nothing else, not even a sweep that finds it idle, sets its timer. */
  lemma {:induction false} TimerIsLastHeard(s: State, run: seq<Step>, k: nat)
    requires Init(s) && Legal(s, run) && k in Replay(s, run).res.ctxs
    ensures Replay(s, run).res.ctxs[k].timer == LastHeard(s, run, k)
    decreases |run|
  {
    if run != [] {
      hide Apply, Enabled, Heard, Base;
      var before := run[..|run| - 1];
      RunKeepsBase(s, before);
      StepTimed(Replay(s, before), run[|run| - 1], k);
      if k in Replay(s, before).res.ctxs { TimerIsLastHeard(s, before, k); }
    }
  }

  // ----- check counts -----

  // Only a sweep that finds a connection idle raises its check count.
  lemma StepChecks(s: State, step: Step, k: nat)
    requires Base(s) && Enabled(s, step) && k in Apply(s, step).res.ctxs && Apply(s, step).res.ctxs[k].checks == 2
    ensures k in s.res.ctxs
    ensures s.res.ctxs[k].checks == 2 || (step.SweepAll? && SeenIdle(s.res, step.visits, k))
  {
    match step
    case OpenSlot(first, second) => PostAcceptLeaves(s, first, second);
    case Completion(id, ok, bytes, c) => CompleteChecks(s, id, ok, bytes, c);
    case SweepAll(visits) =>
      SweepIsExact(s.res, visits);
      var n :| 0 <= n < |visits| && visits[n].key == k;
      assert visits[n] in visits;
    case _ =>
  }

  // The last step of a run either found k idle or met it already checked once before.
  lemma LastCheck(s: State, run: seq<Step>, k: nat)
    requires Init(s) && Legal(s, run) && run != []
    requires k in Replay(s, run).res.ctxs && Replay(s, run).res.ctxs[k].checks == 2
    ensures var s' := Replay(s, run[..|run| - 1]);
            FoundIdle(s, run, |run| - 1, k) || (k in s'.res.ctxs && s'.res.ctxs[k].checks == 2)
  {
    RunKeepsBase(s, run[..|run| - 1]);
    StepChecks(Replay(s, run[..|run| - 1]), run[|run| - 1], k);
  }

  lemma {:induction false} CheckedTwice(s: State, run: seq<Step>, k: nat)
    requires Init(s) && Legal(s, run) && k in Replay(s, run).res.ctxs && Replay(s, run).res.ctxs[k].checks == 2
    ensures exists n: nat :: FoundIdle(s, run, n, k)
    decreases |run|
  {
    hide FoundIdle;
    if run != [] {
      LastCheck(s, run, k);
      if !FoundIdle(s, run, |run| - 1, k) {
        CheckedTwice(s, run[..|run| - 1], k);
        var n: nat :| FoundIdle(s, run[..|run| - 1], n, k);
        FoundEarlier(s, run, |run| - 1, n, k);
      }
    }
  }

  lemma SweepStrikes(r: Resources, visits: seq<Visit>, k: nat)
    requires Contexts(r.ctxs, r.addrs, r.next) && Walks(r.addrs, visits)
    requires k in r.ctxs && k !in Sweep(r, visits).ctxs
    ensures SeenIdle(r, visits, k) && r.ctxs[k].kind == AcceptedSocket && r.ctxs[k].checks == 2
  {
    SweepIsExact(r, visits);
    var i :| 0 <= i < |visits| && visits[i].key == k;
    assert visits[i] in visits && Evicts(r, visits[i]);
  }

  /** Two strikes: if the last step of a run is a sweep and it removes a connection, then that
      connection is an accepted socket found over the idle limit by this sweep, counted from when it was
      last heard from, and also by an earlier one. */
  lemma TwoStrikes(s: State, run: seq<Step>, k: nat)
    requires Init(s) && Legal(s, run) && run != [] && run[|run| - 1].SweepAll?
    requires k in Replay(s, run[..|run| - 1]).res.ctxs && k !in Replay(s, run).res.ctxs
    ensures FoundIdle(s, run, |run| - 1, k)
    ensures Replay(s, run[..|run| - 1]).res.ctxs[k].kind == AcceptedSocket
    ensures exists n: nat :: n < |run| - 1 && FoundIdle(s, run, n, k)
    ensures exists v :: v in run[|run| - 1].visits && v.key == k
                     && v.now - LastHeard(s, run[..|run| - 1], k) > Replay(s, run[..|run| - 1]).res.limit
  {
    var before, last := run[..|run| - 1], |run| - 1;
    TimerIsLastHeard(s, before, k);
    RunKeepsBase(s, before);
    SweepStrikes(Replay(s, before).res, run[last].visits, k);
    CheckedTwice(s, before, k);
    var n: nat :| FoundIdle(s, before, n, k);
    FoundEarlier(s, run, last, n, k);
  }
}
