/** The select server's watched sockets, as plain sequences: what one round of the service
    loop does to them, and what a whole run amounts to. */
module WatchSet {

  type Sock = int

  const FD_SETSIZE: nat := 1048

  // some holds nothing more often than all does.
  predicate Among(some: seq<Sock>, all: seq<Sock>) {
    multiset(some) <= multiset(all)
  }

  // ----- keeping and removing -----

  // The sockets of vec that are not in out, in order.
  function Keep(vec: seq<Sock>, out: set<Sock>): seq<Sock> {
    if vec == [] then []
    else
      var init, last := vec[..|vec| - 1], vec[|vec| - 1];
      Keep(init, out) + if last in out then [] else [last]
  }

  // The sockets of vec that are in out, in order: the ones RefreshFDSet_ closes.
  function Remove(vec: seq<Sock>, out: set<Sock>): seq<Sock> {
    if vec == [] then []
    else
      var init, last := vec[..|vec| - 1], vec[|vec| - 1];
      Remove(init, out) + if last in out then [last] else []
  }

  lemma {:induction false} KeepAppend(a: seq<Sock>, b: seq<Sock>, out: set<Sock>)
    ensures Keep(a + b, out) == Keep(a, out) + Keep(b, out)
  {
    if b == [] {
      assert a + b == a;
    } else {
      var init := b[..|b| - 1];
      KeepAppend(a, init, out);
      assert (a + b)[..|a + b| - 1] == a + init;
    }
  }

  lemma KeepNone(out: set<Sock>)
    ensures Keep([], out) == [] && Remove([], out) == []
  {
  }

  lemma KeepNext(vec: seq<Sock>, out: set<Sock>, j: nat)
    requires j < |vec|
    ensures Keep(vec[..j + 1], out) == Keep(vec[..j], out) + if vec[j] in out then [] else [vec[j]]
    ensures Remove(vec[..j + 1], out) == Remove(vec[..j], out) + if vec[j] in out then [vec[j]] else []
  {
    assert vec[..j + 1][..j] == vec[..j];
  }

  lemma {:induction false} KeepLength(vec: seq<Sock>, out: set<Sock>)
    ensures |Keep(vec, out)| + |Remove(vec, out)| == |vec|
  {
    if vec != [] { KeepLength(vec[..|vec| - 1], out); }
  }

  lemma {:induction false} KeepPrefix(vec: seq<Sock>, out: set<Sock>, j: nat)
    requires j <= |vec|
    ensures |Keep(vec[..j], out)| <= |Keep(vec, out)|
  {
    assert vec == vec[..j] + vec[j..];
    KeepAppend(vec[..j], vec[j..], out);
  }

  // How often each socket is removed.
  lemma {:induction false} RemoveCount(vec: seq<Sock>, out: set<Sock>, s: Sock)
    ensures multiset(Remove(vec, out))[s] == if s in out then multiset(vec)[s] else 0
  {
    if vec != [] {
      RemoveCount(vec[..|vec| - 1], out, s);
      assert vec == vec[..|vec| - 1] + [vec[|vec| - 1]];
    }
  }

  ghost predicate NoDuplicates(vec: seq<Sock>) {
    forall i, j | 0 <= i < j < |vec| :: vec[i] != vec[j]
  }

  lemma {:induction false} CountOnce(vec: seq<Sock>, s: Sock)
    requires NoDuplicates(vec)
    ensures multiset(vec)[s] == if s in vec then 1 else 0
  {
    if vec != [] {
      var init := vec[..|vec| - 1];
      CountOnce(init, s);
      assert vec == init + [vec[|vec| - 1]];
    }
  }

  /** The refill never writes past the array allocated for it: when everything marked closed is
      being watched, the sockets that stay are at most the watched less the closed. */
  lemma SurvivorsFit(vec: seq<Sock>, out: set<Sock>)
    requires forall s | s in out :: s in vec
    ensures |Keep(vec, out)| <= |vec| - |out|
  {
    KeepLength(vec, out);
    forall s | s in out ensures multiset(out)[s] <= multiset(Remove(vec, out))[s] {
      RemoveCount(vec, out, s);
    }
    assert multiset(out) <= multiset(Remove(vec, out));
    MultisetSize(multiset(out), multiset(Remove(vec, out)));
  }

  lemma MultisetSize(a: multiset<Sock>, b: multiset<Sock>)
    requires a <= b
    ensures |a| <= |b|
  {
    assert b == a + (b - a);
  }

  /** A refresh closes every socket marked closed exactly once if and only if each of them is
      watched exactly once. */
  lemma ClosesOnceExactly(vec: seq<Sock>, out: set<Sock>)
    ensures multiset(Remove(vec, out)) == multiset(out) <==> forall s | s in out :: multiset(vec)[s] == 1
  {
    forall s ensures multiset(Remove(vec, out))[s] == if s in out then multiset(vec)[s] else 0 {
      RemoveCount(vec, out, s);
    }
    if forall s | s in out :: multiset(vec)[s] == 1 {
      assert multiset(Remove(vec, out)) == multiset(out);
    }
    if multiset(Remove(vec, out)) == multiset(out) {
      forall s | s in out ensures multiset(vec)[s] == 1 {
        assert multiset(out)[s] == 1;
      }
    }
  }

  // ----- dispatch -----

  // The slots the dispatch loop looks at after select left ready in front: its guard lets it
  // look one slot further, at whatever value (spare) lies there.
  function Slots(ready: seq<Sock>, spare: Sock): seq<Sock> {
    var looked := ready + [spare];
    if |looked| <= FD_SETSIZE then looked else looked[..FD_SETSIZE]
  }

  // Of those, the ones it processes: FD_ISSET passes exactly the ready sockets.
  function Processed(slots: seq<Sock>, ready: seq<Sock>): seq<Sock> {
    if slots == [] then []
    else
      var init, last := slots[..|slots| - 1], slots[|slots| - 1];
      Processed(init, ready) + if last in ready then [last] else []
  }

  lemma {:induction false} ProcessedReady(slots: seq<Sock>, ready: seq<Sock>)
    requires forall s | s in slots :: s in ready
    ensures Processed(slots, ready) == slots
  {
    if slots != [] { ProcessedReady(slots[..|slots| - 1], ready); }
  }

  lemma ProcessedLast(slots: seq<Sock>, s: Sock, ready: seq<Sock>)
    ensures Processed(slots + [s], ready) == Processed(slots, ready) + if s in ready then [s] else []
  {
    assert (slots + [s])[..|slots|] == slots;
  }

  lemma ProcessedOf(ready: seq<Sock>, spare: Sock)
    ensures Processed(Slots(ready, spare), ready)
         == if |ready| >= FD_SETSIZE then ready[..FD_SETSIZE]
            else if spare in ready then ready + [spare] else ready
  {
    hide Processed;
    if |ready| >= FD_SETSIZE {
      assert Slots(ready, spare) == ready[..FD_SETSIZE];
      ProcessedReady(ready[..FD_SETSIZE], ready);
    } else {
      ProcessedLast(ready, spare, ready);
      ProcessedReady(ready, ready);
    }
  }

  /** Dispatch covers: only ready sockets are processed, and up to FD_SETSIZE of them, every
      ready socket is processed at least once. */
  lemma DispatchCovers(ready: seq<Sock>, spare: Sock)
    ensures forall s | s in Processed(Slots(ready, spare), ready) :: s in ready
    ensures |ready| <= FD_SETSIZE ==> forall s | s in ready :: s in Processed(Slots(ready, spare), ready)
  {
    ProcessedOf(ready, spare);
    if |ready| == FD_SETSIZE { assert ready[..FD_SETSIZE] == ready; }
  }

  /** Dispatch is exactly once if and only if the slot looked at in excess does not repeat a
      ready socket, and the ready sockets are not too many. */
  lemma DispatchOnceExactly(ready: seq<Sock>, spare: Sock)
    ensures multiset(Processed(Slots(ready, spare), ready)) == multiset(ready)
       <==> |ready| == FD_SETSIZE || (|ready| < FD_SETSIZE && spare !in ready)
  {
    ProcessedOf(ready, spare);
    if |ready| > FD_SETSIZE {
      assert |multiset(ready[..FD_SETSIZE])| != |multiset(ready)|;
    } else if |ready| == FD_SETSIZE {
      assert ready[..FD_SETSIZE] == ready;
    } else if spare in ready {
      assert |multiset(ready + [spare])| != |multiset(ready)|;
    }
  }

  // ----- one round -----

  // What accept or recv answered for a processed socket.
  datatype Outcome = Accepted(handle: Sock) | Received | Gone | WokenUp

  // The sockets tracked, and those marked closed in this round.
  datatype Tracked = Tracked(vec: seq<Sock>, closed: set<Sock>)

  // ProcessReadEvent_: the listening socket accepts; any other receives, and is marked closed at the end of its stream.
  function Process(t: Tracked, listen: Sock, s: Sock, o: Outcome): Tracked {
    if s == listen then (if o.Accepted? then t.(vec := t.vec + [o.handle]) else t)
    else if o.Gone? then t.(closed := t.closed + {s})
    else t
  }

  function ProcessAll(t: Tracked, listen: Sock, socks: seq<Sock>, outs: seq<Outcome>): Tracked
    requires |socks| == |outs|
  {
    if socks == [] then t
    else
      var n := |socks| - 1;
      Process(ProcessAll(t, listen, socks[..n], outs[..n]), listen, socks[n], outs[n])
  }

  lemma ProcessNone(t: Tracked, listen: Sock, ready: seq<Sock>)
    ensures ProcessAll(t, listen, [], []) == t && Processed([], ready) == []
  {
  }

  lemma ProcessAllLast(t: Tracked, listen: Sock, socks: seq<Sock>, outs: seq<Outcome>, s: Sock, o: Outcome)
    requires |socks| == |outs|
    ensures ProcessAll(t, listen, socks + [s], outs + [o]) == Process(ProcessAll(t, listen, socks, outs), listen, s, o)
  {
    assert (socks + [s])[..|socks|] == socks && (outs + [o])[..|outs|] == outs;
  }

  // The handles accepted in a round, in dispatch order.
  function Handles(listen: Sock, socks: seq<Sock>, outs: seq<Outcome>): seq<Sock>
    requires |socks| == |outs|
  {
    if socks == [] then []
    else
      Handles(listen, socks[..|socks| - 1], outs[..|outs| - 1])
      + if socks[|socks| - 1] == listen && outs[|outs| - 1].Accepted? then [outs[|outs| - 1].handle] else []
  }

  // The sockets whose read ended in a round.
  function Ended(listen: Sock, socks: seq<Sock>, outs: seq<Outcome>): set<Sock>
    requires |socks| == |outs|
  {
    set i | 0 <= i < |socks| && socks[i] != listen && outs[i].Gone? :: socks[i]
  }

  /** A round tracks the handles it accepts behind the sockets it had, and marks exactly the
      sockets whose read ended, never the listening one. */
  lemma {:induction false} RoundTracks(t: Tracked, listen: Sock, socks: seq<Sock>, outs: seq<Outcome>)
    requires |socks| == |outs|
    ensures ProcessAll(t, listen, socks, outs)
         == Tracked(t.vec + Handles(listen, socks, outs), t.closed + Ended(listen, socks, outs))
    ensures listen !in Ended(listen, socks, outs)
    ensures forall s | s in Ended(listen, socks, outs) :: s in socks
  {
    if socks != [] {
      var n := |socks| - 1;
      RoundTracks(t, listen, socks[..n], outs[..n]);
      assert Ended(listen, socks, outs)
          == Ended(listen, socks[..n], outs[..n])
             + (if socks[n] != listen && outs[n].Gone? then {socks[n]} else {}) by {
        forall s | s in Ended(listen, socks, outs)
          ensures s in Ended(listen, socks[..n], outs[..n]) || (s == socks[n] && socks[n] != listen && outs[n].Gone?)
        {
          var i :| 0 <= i < |socks| && socks[i] != listen && outs[i].Gone? && socks[i] == s;
          if i < n { assert socks[..n][i] == s && outs[..n][i].Gone?; }
        }
        forall s | s in Ended(listen, socks[..n], outs[..n]) ensures s in Ended(listen, socks, outs) {
          var i :| 0 <= i < n && socks[..n][i] != listen && outs[..n][i].Gone? && socks[..n][i] == s;
          assert socks[i] == s && outs[i].Gone?;
        }
      }
    }
  }

  // ----- whole runs -----

  // A socket and the round in which it was accepted; the listening socket counts as round 0.
  datatype Entry = Entry(sock: Sock, round: nat)

  // No read of the socket ended in the round it was accepted or any later one.
  predicate Survives(e: Entry, gone: seq<set<Sock>>) {
    forall r | e.round <= r < |gone| :: e.sock !in gone[r]
  }

  // The reference: everything ever accepted, in order, that survives.
  function Watched(log: seq<Entry>, gone: seq<set<Sock>>): seq<Sock> {
    if log == [] then []
    else
      var last := log[|log| - 1];
      Watched(log[..|log| - 1], gone) + if Survives(last, gone) then [last.sock] else []
  }

  function Entries(handles: seq<Sock>, round: nat): seq<Entry> {
    seq(|handles|, i requires 0 <= i < |handles| => Entry(handles[i], round))
  }

  lemma SurvivesLater(e: Entry, gone: seq<set<Sock>>, out: set<Sock>)
    requires e.round <= |gone|
    ensures Survives(e, gone + [out]) <==> Survives(e, gone) && e.sock !in out
  {
    assert (gone + [out])[|gone|] == out;
    assert forall r | 0 <= r < |gone| :: (gone + [out])[r] == gone[r];
    if Survives(e, gone + [out]) {
      forall r | e.round <= r < |gone| ensures e.sock !in gone[r] {
        assert e.sock !in (gone + [out])[r];
      }
    }
  }

  // A round's endings take from the watched sockets.
  lemma {:induction false} WatchedLater(log: seq<Entry>, gone: seq<set<Sock>>, out: set<Sock>)
    requires forall e | e in log :: e.round <= |gone|
    ensures Watched(log, gone + [out]) == Keep(Watched(log, gone), out)
  {
    if log != [] {
      var init, last := log[..|log| - 1], log[|log| - 1];
      WatchedLater(init, gone, out);
      SurvivesLater(last, gone, out);
      if Survives(last, gone) {
        KeepAppend(Watched(init, gone), [last.sock], out);
        assert [last.sock][..0] == [];
        assert Keep([last.sock], out) == if last.sock in out then [] else [last.sock];
      } else {
        assert Watched(log, gone) == Watched(init, gone);
      }
    }
  }

  lemma {:induction false} WatchedAppend(log: seq<Entry>, handles: seq<Sock>, gone: seq<set<Sock>>)
    ensures Watched(log + Entries(handles, |gone|), gone) == Watched(log, gone) + handles
  {
    if handles == [] {
      assert log + Entries(handles, |gone|) == log;
    } else {
      var init, n := handles[..|handles| - 1], |handles| - 1;
      WatchedAppend(log, init, gone);
      var all := log + Entries(handles, |gone|);
      assert all[..|all| - 1] == log + Entries(init, |gone|);
      assert all[|all| - 1] == Entry(handles[n], |gone|);
      assert init + [handles[n]] == handles;
    }
  }

  /** The watch set over a whole run: one round that accepts handles and ends the sockets in
      out turns the watched sockets into the watched sockets of the longer run. */
  lemma WatchedRound(log: seq<Entry>, gone: seq<set<Sock>>, handles: seq<Sock>, out: set<Sock>)
    requires forall e | e in log :: e.round <= |gone|
    ensures Watched(log + Entries(handles, |gone|), gone + [out]) == Keep(Watched(log, gone) + handles, out)
  {
    WatchedAppend(log, handles, gone);
    WatchedLater(log + Entries(handles, |gone|), gone, out);
  }

  lemma {:induction false} ListenStaysFirst(log: seq<Entry>, gone: seq<set<Sock>>)
    requires log != [] && Survives(log[0], gone)
    ensures Watched(log, gone) != [] && Watched(log, gone)[0] == log[0].sock
  {
    if |log| > 1 {
      ListenStaysFirst(log[..|log| - 1], gone);
    } else {
      assert log[..|log| - 1] == [];
    }
  }

  // vec is what a run with this history watches; the listening socket is in it for good.
  ghost predicate Records(listen: Sock, log: seq<Entry>, gone: seq<set<Sock>>, vec: seq<Sock>) {
    && log != [] && log[0] == Entry(listen, 0)
    && (forall e | e in log :: e.round <= |gone|)
    && (forall r | 0 <= r < |gone| :: listen !in gone[r])
    && vec == Watched(log, gone)
  }

  // ----- runs of rounds -----

  // What one round came to: the handles accepted, and the sockets whose read ended.
  datatype RoundResult = RoundResult(handles: seq<Sock>, out: set<Sock>)

  // The watched sockets as the service computes them, round after round.
  function Tracking(listen: Sock, rounds: seq<RoundResult>): seq<Sock> {
    if rounds == [] then [listen]
    else
      var last := rounds[|rounds| - 1];
      Keep(Tracking(listen, rounds[..|rounds| - 1]) + last.handles, last.out)
  }

  function LogOf(listen: Sock, rounds: seq<RoundResult>): seq<Entry> {
    if rounds == [] then [Entry(listen, 0)]
    else
      var n := |rounds| - 1;
      LogOf(listen, rounds[..n]) + Entries(rounds[n].handles, n)
  }

  function GoneOf(rounds: seq<RoundResult>): seq<set<Sock>> {
    seq(|rounds|, i requires 0 <= i < |rounds| => rounds[i].out)
  }

  /** The watch set over whole runs: after any number of rounds the service watches the
      listening socket, first, and every handle ever accepted, in the order accepted, less those
      whose read ended in the round of their acceptance or a later one. */
  lemma {:induction false} RunWatches(listen: Sock, rounds: seq<RoundResult>)
    requires forall i | 0 <= i < |rounds| :: listen !in rounds[i].out
    ensures Records(listen, LogOf(listen, rounds), GoneOf(rounds), Tracking(listen, rounds))
  {
    if rounds == [] {
      assert [Entry(listen, 0)][..0] == [];
    } else {
      var n := |rounds| - 1;
      RunWatches(listen, rounds[..n]);
      assert GoneOf(rounds) == GoneOf(rounds[..n]) + [rounds[n].out];
      RecordsRound(listen, LogOf(listen, rounds[..n]), GoneOf(rounds[..n]), Tracking(listen, rounds[..n]),
                   rounds[n].handles, rounds[n].out);
    }
  }

  /** In every reachable state the listening socket is the first one watched. */
  lemma ListenWatched(listen: Sock, log: seq<Entry>, gone: seq<set<Sock>>, vec: seq<Sock>)
    requires Records(listen, log, gone, vec)
    ensures vec != [] && vec[0] == listen
  {
    ListenStaysFirst(log, gone);
  }

  lemma RecordsRound(listen: Sock, log: seq<Entry>, gone: seq<set<Sock>>, vec: seq<Sock>,
                     handles: seq<Sock>, out: set<Sock>)
    requires Records(listen, log, gone, vec) && listen !in out
    ensures Records(listen, log + Entries(handles, |gone|), gone + [out], Keep(vec + handles, out))
  {
    WatchedRound(log, gone, handles, out);
  }

  lemma {:induction false} KeepMembers(vec: seq<Sock>, out: set<Sock>)
    ensures forall s :: s in Keep(vec, out) <==> s in vec && s !in out
  {
    if vec != [] {
      KeepMembers(vec[..|vec| - 1], out);
      assert vec == vec[..|vec| - 1] + [vec[|vec| - 1]];
    }
  }

  lemma {:induction false} KeepNoDuplicates(vec: seq<Sock>, out: set<Sock>)
    requires NoDuplicates(vec)
    ensures NoDuplicates(Keep(vec, out))
  {
    if vec != [] {
      var init := vec[..|vec| - 1];
      KeepNoDuplicates(init, out);
      KeepMembers(init, out);
    }
  }

  // ----- what is closed over a run -----

  // Every closesocket call of a run, in order.
  function Closes(listen: Sock, rounds: seq<RoundResult>): seq<Sock> {
    if rounds == [] then []
    else
      var before, last := rounds[..|rounds| - 1], rounds[|rounds| - 1];
      Closes(listen, before) + Remove(Tracking(listen, before) + last.handles, last.out)
  }

  function AllHandles(rounds: seq<RoundResult>): seq<Sock> {
    if rounds == [] then [] else AllHandles(rounds[..|rounds| - 1]) + rounds[|rounds| - 1].handles
  }

  // In how many rounds the socket's read ended.
  function Endings(rounds: seq<RoundResult>, s: Sock): nat {
    if rounds == [] then 0
    else Endings(rounds[..|rounds| - 1], s) + if s in rounds[|rounds| - 1].out then 1 else 0
  }

  // Only sockets watched since before the round end in it, and never the listening one.
  ghost predicate Genuine(listen: Sock, rounds: seq<RoundResult>) {
    rounds == [] ||
    var before, last := rounds[..|rounds| - 1], rounds[|rounds| - 1];
    Genuine(listen, before) && listen !in last.out && forall s | s in last.out :: s in Tracking(listen, before)
  }

  // accept returns handles that are distinct and not watched at the time.
  ghost predicate FreshHandles(listen: Sock, rounds: seq<RoundResult>) {
    rounds == [] ||
    var before, last := rounds[..|rounds| - 1], rounds[|rounds| - 1];
    && FreshHandles(listen, before)
    && NoDuplicates(last.handles) && forall s | s in last.handles :: s !in Tracking(listen, before)
  }

  // At no time, not even before a refresh, is a socket watched twice.
  ghost predicate NeverTwice(listen: Sock, rounds: seq<RoundResult>) {
    rounds == [] ||
    var before, last := rounds[..|rounds| - 1], rounds[|rounds| - 1];
    NeverTwice(listen, before) && NoDuplicates(Tracking(listen, before) + last.handles)
  }

  lemma NeverListen(listen: Sock, rounds: seq<RoundResult>)
    requires Genuine(listen, rounds)
    ensures forall i | 0 <= i < |rounds| :: listen !in rounds[i].out
  {
    if rounds != [] { NeverListen(listen, rounds[..|rounds| - 1]); }
  }

  // How often each socket is kept.
  lemma {:induction false} KeepCount(vec: seq<Sock>, out: set<Sock>, s: Sock)
    ensures multiset(Keep(vec, out))[s] == if s in out then 0 else multiset(vec)[s]
  {
    if vec != [] {
      KeepCount(vec[..|vec| - 1], out, s);
      assert vec == vec[..|vec| - 1] + [vec[|vec| - 1]];
    }
  }

  lemma KeepAndRemove(vec: seq<Sock>, out: set<Sock>)
    ensures multiset(Keep(vec, out)) + multiset(Remove(vec, out)) == multiset(vec)
  {
    hide Keep, Remove;
    forall s ensures multiset(Keep(vec, out))[s] + multiset(Remove(vec, out))[s] == multiset(vec)[s] {
      KeepCount(vec, out, s);
      RemoveCount(vec, out, s);
    }
  }

  /** Nothing is lost and nothing closed too often, over any run: every socket is watched now and
      has been closed as often, together, as it was accepted. */
  lemma {:induction false} WatchedOrClosed(listen: Sock, rounds: seq<RoundResult>)
    ensures multiset(Tracking(listen, rounds)) + multiset(Closes(listen, rounds))
         == multiset([listen]) + multiset(AllHandles(rounds))
  {
    if rounds != [] {
      var before, last := rounds[..|rounds| - 1], rounds[|rounds| - 1];
      WatchedOrClosed(listen, before);
      KeepAndRemove(Tracking(listen, before) + last.handles, last.out);
      hide Keep, Remove;
      CountRound(Tracking(listen, before), last.handles, Closes(listen, before), AllHandles(before), listen,
                 Keep(Tracking(listen, before) + last.handles, last.out),
                 Remove(Tracking(listen, before) + last.handles, last.out));
    }
  }

  lemma CountRound(vec: seq<Sock>, handles: seq<Sock>, closes: seq<Sock>, all: seq<Sock>, listen: Sock,
                   kept: seq<Sock>, removed: seq<Sock>)
    requires multiset(vec) + multiset(closes) == multiset([listen]) + multiset(all)
    requires multiset(kept) + multiset(removed) == multiset(vec + handles)
    ensures multiset(kept) + multiset(closes + removed) == multiset([listen]) + multiset(all + handles)
  {
    calc {
      multiset(kept) + multiset(closes + removed);
      (multiset(kept) + multiset(removed)) + multiset(closes);
      (multiset(vec) + multiset(closes)) + multiset(handles);
    }
  }

  lemma NoDuplicatesJoin(a: seq<Sock>, b: seq<Sock>)
    ensures NoDuplicates(a + b) <==> NoDuplicates(a) && NoDuplicates(b) && forall s | s in b :: s !in a
  {
    var c := a + b;
    if NoDuplicates(c) {
      assert forall i | 0 <= i < |a| :: c[i] == a[i];
      forall i, j | 0 <= i < j < |b| ensures b[i] != b[j] {
        assert c[|a| + i] == b[i] && c[|a| + j] == b[j];
      }
      forall s | s in b ensures s !in a {
        var j :| 0 <= j < |b| && b[j] == s;
        assert c[|a| + j] == s;
      }
    }
    if NoDuplicates(a) && NoDuplicates(b) && forall s | s in b :: s !in a {
      forall i, j | 0 <= i < j < |c| ensures c[i] != c[j] {
        if i < |a| <= j { assert b[j - |a|] in b; }
      }
    }
  }

  lemma {:induction false} NeverTwiceNow(listen: Sock, rounds: seq<RoundResult>)
    requires NeverTwice(listen, rounds)
    ensures NoDuplicates(Tracking(listen, rounds))
  {
    if rounds != [] {
      var before, last := rounds[..|rounds| - 1], rounds[|rounds| - 1];
      KeepNoDuplicates(Tracking(listen, before) + last.handles, last.out);
    }
  }

  /** Over whole runs: no socket is ever watched twice if and only if accept only ever returns
      handles that are distinct and not watched at the time. */
  lemma {:induction false} FreshHandlesNoDuplicates(listen: Sock, rounds: seq<RoundResult>)
    ensures NeverTwice(listen, rounds) <==> FreshHandles(listen, rounds)
  {
    if rounds != [] {
      var before, last := rounds[..|rounds| - 1], rounds[|rounds| - 1];
      FreshHandlesNoDuplicates(listen, before);
      NoDuplicatesJoin(Tracking(listen, before), last.handles);
      if NeverTwice(listen, before) { NeverTwiceNow(listen, before); }
    }
  }

  /** With fresh handles every refresh of a run closes each socket marked in its round exactly
      once, so that a socket has been closed as often as its read has ended. */
  lemma {:induction false} ClosedOncePerEnding(listen: Sock, rounds: seq<RoundResult>)
    requires FreshHandles(listen, rounds) && Genuine(listen, rounds)
    ensures forall s :: multiset(Closes(listen, rounds))[s] == Endings(rounds, s)
    ensures rounds != [] ==>
      var before, last := rounds[..|rounds| - 1], rounds[|rounds| - 1];
      multiset(Remove(Tracking(listen, before) + last.handles, last.out)) == multiset(last.out)
  {
    if rounds != [] {
      var before, last := rounds[..|rounds| - 1], rounds[|rounds| - 1];
      ClosedOncePerEnding(listen, before);
      FreshHandlesNoDuplicates(listen, rounds);
      var vec := Tracking(listen, before) + last.handles;
      forall s | s in last.out ensures multiset(vec)[s] == 1 {
        CountOnce(vec, s);
      }
      ClosesOnceExactly(vec, last.out);
    }
  }
}
