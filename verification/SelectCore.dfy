/** The select server's service loop (GT_Select_Core): the read set's array, regrown by
    hand, the vector of watched sockets, and the sockets marked closed. */
module SelectCores {
  import opened WatchSet
  import opened SelectBuffers

  const DEFAULT_GROW: nat := 100
  const SOCKET_ERROR: int := -1

  // What the system answers about a ready socket: the handle accept returns, whether the peer is the
  // wake-up socket, and what recv returns.
  datatype Reply = Reply(handle: Sock, wakeUp: bool, received: int)

  function OutcomeOf(listen: Sock, s: Sock, r: Reply): Outcome {
    if s == listen then Accepted(r.handle)
    else if r.wakeUp then WokenUp
    else if r.received == 0 || r.received == SOCKET_ERROR then Gone
    else Received
  }

  ghost predicate Outcomes(listen: Sock, socks: seq<Sock>, replies: nat -> Reply, outs: seq<Outcome>) {
    |outs| == |socks| && forall i | 0 <= i < |outs| :: outs[i] == OutcomeOf(listen, socks[i], replies(i))
  }

  class SelectCore {
    const listen: Sock
    const bufs: SelectResourceManager
    var arr: array?<Sock>      // fd_sock_array of the read set; its length is socket_set_total_size_
    var count: nat             // sock_count
    var vec: seq<Sock>         // client_socket_vec_
    var closed: set<Sock>      // closed_client_need_clean_
    var ended: bool            // end_thread_
    ghost var rounds: seq<RoundResult>   // what each round came to
    ghost var closes: seq<Sock>          // every closesocket call

    // The array holds the watched sockets, ready to be passed to select.
    ghost predicate Armed()
      reads this, arr
    {
      arr != null && count <= arr.Length && arr[..count] == vec
    }

    // What is watched, and what has been closed, is what the rounds so far amount to.
    ghost predicate Faithful()
      reads this
    {
      Genuine(listen, rounds) && vec == Tracking(listen, rounds) && closes == Closes(listen, rounds)
    }

    ghost predicate Idle()
      reads this, bufs
    {
      bufs.refill > 0 && Ledger(bufs.View()) && bufs.inUse == {}
    }

    ghost predicate Valid()
      reads this, arr, bufs
    {
      Armed() && Faithful() && Idle() && closed == {}
    }

    constructor (listen: Sock, growSize: nat, cacheSize: nat)
      requires cacheSize > 0
      ensures Valid() && !ended && this.listen == listen
      ensures rounds == [] && closes == [] && vec == [listen]
    {
      this.listen := listen;
      bufs := new SelectResourceManager(cacheSize);
      arr, count, vec, closed, ended := null, 0, [], {}, false;
      rounds, closes := [], [];
      new;
      GrowSet_(growSize);
      AddListenEvent_();
    }

    // A missing array is allocated at the given size; a present one is copied into one that much larger.
    method GrowSet_(growSize: nat)
      requires arr != null ==> count <= arr.Length
      modifies this`arr, this`count
      ensures arr != null && fresh(arr)
      ensures old(arr) == null ==> arr.Length == growSize && count == 0
      ensures old(arr) != null ==> arr.Length == growSize + count
      ensures old(arr) != null ==> count == old(count) && arr[..count] == old(arr[..count])
    {
      if arr == null {
        arr, count := new Sock[growSize], 0;
      } else {
        var temp := new Sock[growSize + count];
        var i := 0;
        while i < count
          invariant i <= count && temp[..i] == arr[..i]
          modifies temp
        {
          temp[i] := arr[i];
          i := i + 1;
        }
        arr := temp;
      }
    }

    method AddListenEvent_()
      requires arr != null && count <= arr.Length
      modifies this`arr, this`count, this`vec, arr
      ensures arr != null && (arr == old(arr) || fresh(arr))
      ensures count == old(count) + 1 && count <= arr.Length && arr[..count] == old(arr[..count]) + [listen]
      ensures vec == old(vec) + [listen]
      ensures arr.Length == if old(arr.Length == count) then old(count) + DEFAULT_GROW else old(arr.Length)
    {
      if arr.Length == count {
        GrowSet_(DEFAULT_GROW);
      }
      arr[count] := listen;
      count := count + 1;
      vec := vec + [listen];
    }

    // The system call leaves in front, and counts, those of the sockets passed that are ready:
    // at least one, as there is no timeout; what it leaves behind them is open.  Failing, it leaves the
    // set as it is; any other answer counts as failing.
    method SelectReady(ready: seq<Sock>, behind: nat -> Sock) returns (ok: bool)
      requires arr != null && 0 < count <= arr.Length
      modifies this`count, arr
      ensures ok == (ready != [] && Among(ready, old(arr[..count])))
      ensures !ok ==> count == old(count) && arr[..] == old(arr[..])
      ensures ok ==> 0 < count <= arr.Length && arr[..count] == ready
      ensures ok ==> count < arr.Length ==> arr[count] == behind(count)
    {
      ok := ready != [] && Among(ready, arr[..count]);
      if ok {
        MultisetSize(multiset(ready), multiset(arr[..count]));
        forall j | 0 <= j < arr.Length {
          arr[j] := if j < |ready| then ready[j] else behind(j);
        }
        count := |ready|;
        assert arr[..count] == ready;
      }
    }

    method ProcessReadEvent_(s: Sock, r: Reply)
      requires Idle()
      modifies this`vec, this`closed, bufs
      ensures Idle()
      ensures Tracked(vec, closed) == Process(old(Tracked(vec, closed)), listen, s, OutcomeOf(listen, s, r))
    {
      if s == listen {
        vec := vec + [r.handle];
      } else {
        ghost var before := bufs.View();
        var bu := bufs.GetSelectBuffer();
        UseKeepsLedger(before, bufs.refill, bu);
        if !r.wakeUp && (r.received == 0 || r.received == SOCKET_ERROR) {
          closed := closed + {s};
        }
        bufs.ReleaseSelectBuffer(bu);
      }
    }

    // The dispatch loop as written: it stops only past the slot after the last ready one, which
    // may lie beyond the array; FD_ISSET then asks whether the value found there is ready.
    method DispatchReady(behind: nat -> Sock, replies: nat -> Reply) returns (ghost spare: Sock, ghost outs: seq<Outcome>)
      requires arr != null && count <= arr.Length && Idle()
      modifies this`vec, this`closed, bufs
      ensures Idle() && spare == if count < arr.Length then arr[count] else behind(count)
      ensures var socks := Processed(Slots(arr[..count], spare), arr[..count]);
              && Outcomes(listen, socks, replies, outs)
              && Tracked(vec, closed) == ProcessAll(old(Tracked(vec, closed)), listen, socks, outs)
    {
      hide Processed, ProcessAll, Process, OutcomeOf;
      ProcessNone(Tracked(vec, closed), listen, arr[..count]);
      spare := if count < arr.Length then arr[count] else behind(count);
      ghost var ready, t := arr[..count], Tracked(vec, closed);
      ghost var looked := ready + [spare];
      ghost var socks: seq<Sock> := [];
      outs := [];
      var index, n := 0, 0;
      while index < FD_SETSIZE && index <= count
        invariant 0 <= index <= |looked| && index <= FD_SETSIZE && Idle()
        invariant socks == Processed(looked[..index], ready) && n == |socks|
        invariant Outcomes(listen, socks, replies, outs)
        invariant Tracked(vec, closed) == ProcessAll(t, listen, socks, outs)
        modifies this`vec, this`closed, bufs
      {
        var s := if index < arr.Length then arr[index] else behind(index);
        assert looked[..index + 1] == looked[..index] + [s];
        ProcessedLast(looked[..index], s, ready);
        if s in arr[..count] {
          ProcessReadEvent_(s, replies(n));
          ProcessAllLast(t, listen, socks, outs, s, OutcomeOf(listen, s, replies(n)));
          socks, outs := socks + [s], outs + [OutcomeOf(listen, s, replies(n))];
          n := n + 1;
        }
        index := index + 1;
      }
      assert looked[..index] == Slots(ready, spare);
    }

    // The array is allocated anew for the sockets that stay, and refilled; the others are closed.
    method RefreshFDSet_()
      requires forall s | s in closed :: s in vec
      modifies this`arr, this`count, this`vec, this`closed, this`closes
      ensures closed == {}
      ensures old(vec) != [] ==> Armed() && fresh(arr) && arr.Length == |old(vec)| - |old(closed)|
      ensures old(vec) == [] ==> arr == old(arr) && count == old(count)
      ensures vec == Keep(old(vec), old(closed)) && closes == old(closes) + Remove(old(vec), old(closed))
    {
      hide Keep, Remove;
      SurvivorsFit(vec, closed);
      ghost var all := vec;
      if vec != [] {
        arr := null;
        GrowSet_(|vec| - |closed|);
      }
      var i := 0;
      ghost var j := 0;
      assert all[..0] == [];
      KeepNone(closed);
      while i < |vec|
        invariant i <= |vec| && j <= |all| && vec[i..] == all[j..]
        invariant vec[..i] == Keep(all[..j], closed) && closes == old(closes) + Remove(all[..j], closed)
        invariant closed == old(closed)
        invariant all == [] ==> arr == old(arr) && count == old(count)
        invariant all != [] ==> arr != null && fresh(arr) && arr.Length == |all| - |closed|
        invariant all != [] ==> count == i <= arr.Length && arr[..count] == vec[..i]
        modifies this`vec, this`count, this`closes, if all == [] then {} else {arr}
        decreases |all| - j
      {
        KeepNext(all, closed, j);
        assert vec[i] == all[j] && vec[i + 1..] == all[j + 1..];
        if vec[i] in closed {
          closes := closes + [vec[i]];
          vec := vec[..i] + vec[i + 1..];
        } else {
          KeepPrefix(all, closed, j + 1);
          arr[count] := vec[i];
          count := count + 1;
          i := i + 1;
        }
        j := j + 1;
      }
      assert all[..j] == all && vec[..i] == vec;
      closed := {};
    }

    // Every ready socket is processed, and the read set made ready for the next round.
    method AnswerReady(behind: nat -> Sock, replies: nat -> Reply)
      returns (ghost ready: seq<Sock>, ghost spare: Sock, ghost outs: seq<Outcome>)
      requires arr != null && 0 < count <= arr.Length && Among(arr[..count], vec)
      requires Idle() && closed == {}
      modifies this`arr, this`count, this`vec, this`closed, this`closes, bufs
      ensures Armed() && Idle() && fresh(arr) && closed == {}
      ensures ready == old(arr[..count]) && spare == old(if count < arr.Length then arr[count] else behind(count))
      ensures Outcomes(listen, Processed(Slots(ready, spare), ready), replies, outs)
      ensures var socks := Processed(Slots(ready, spare), ready);
              var all, out := old(vec) + Handles(listen, socks, outs), Ended(listen, socks, outs);
              && listen !in out && (forall s | s in out :: s in old(vec))
              && vec == Keep(all, out) && closes == old(closes) + Remove(all, out)
    {
      hide Keep, Remove;
      ghost var t := Tracked(vec, closed);
      ready := arr[..count];
      spare, outs := DispatchReady(behind, replies);
      ghost var socks := Processed(Slots(ready, spare), ready);
      RoundTracks(t, listen, socks, outs);
      assert vec == t.vec + Handles(listen, socks, outs) && closed == Ended(listen, socks, outs);
      DispatchCovers(ready, spare);
      forall s | s in closed ensures s in vec && s in t.vec {
        assert s in multiset(ready);
      }
      RefreshFDSet_();
    }

    // A round is entered in the history.
    ghost method Enter(round: RoundResult)
      requires Genuine(listen, rounds) && listen !in round.out && forall s | s in round.out :: s in Tracking(listen, rounds)
      requires vec == Keep(Tracking(listen, rounds) + round.handles, round.out)
      requires closes == Closes(listen, rounds) + Remove(Tracking(listen, rounds) + round.handles, round.out)
      modifies this`rounds
      ensures Faithful() && rounds == old(rounds) + [round]
    {
      hide Keep, Remove;
      rounds := rounds + [round];
      assert rounds[..|rounds| - 1] == old(rounds);
    }

    // One turn of the service loop: ready is what select answers, behind what lies behind that, in the
    // array or past its end.
    method Round(ready: seq<Sock>, behind: nat -> Sock, replies: nat -> Reply)
      returns (answered: bool, ghost outs: seq<Outcome>)
      requires Valid() && !ended
      modifies this, arr, bufs
      ensures Valid() && (arr == old(arr) || fresh(arr))
      ensures ended <==> old(vec) == []     // which ListenWatched excludes
      ensures answered == (ready != [] && Among(ready, old(vec)))
      ensures !answered ==> rounds == old(rounds) && vec == old(vec) && closes == old(closes)
      ensures answered ==>
        var socks := Processed(Slots(ready, behind(|ready|)), ready);
        && Outcomes(listen, socks, replies, outs)
        && rounds == old(rounds) + [RoundResult(Handles(listen, socks, outs), Ended(listen, socks, outs))]
      ensures Records(listen, LogOf(listen, rounds), GoneOf(rounds), vec)
      ensures FreshHandles(listen, rounds) ==>
        NoDuplicates(vec) && forall s :: multiset(closes)[s] == Endings(rounds, s)
    {
      hide Processed, Slots, Keep, Remove, Handles, Ended, Genuine, Tracking, Closes, Records,
           FreshHandles, NoDuplicates, Endings;
      answered, outs := false, [];
      if count == 0 {
        ended := true;
        History(listen, rounds);
        return;
      }
      var ok := SelectReady(ready, behind);
      if !ok {
        History(listen, rounds);
        return;
      }
      answered := true;
      ghost var kept, spare;
      kept, spare, outs := AnswerReady(behind, replies);
      ghost var socks := Processed(Slots(ready, spare), ready);
      Enter(RoundResult(Handles(listen, socks, outs), Ended(listen, socks, outs)));
      History(listen, rounds);
    }
  }

  // What Valid says of the watched sockets and the closed ones, in closed form.
  lemma History(listen: Sock, rounds: seq<RoundResult>)
    requires Genuine(listen, rounds)
    ensures Records(listen, LogOf(listen, rounds), GoneOf(rounds), Tracking(listen, rounds))
    ensures FreshHandles(listen, rounds) ==>
      && NoDuplicates(Tracking(listen, rounds))
      && forall s :: multiset(Closes(listen, rounds))[s] == Endings(rounds, s)
  {
    NeverListen(listen, rounds);
    RunWatches(listen, rounds);
    if FreshHandles(listen, rounds) {
      FreshHandlesNoDuplicates(listen, rounds);
      NeverTwiceNow(listen, rounds);
      ClosedOncePerEnding(listen, rounds);
    }
  }
}
