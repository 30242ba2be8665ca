/** The socket pool (GT_SocketPool_Manager).

    A socket is an id that is never reused.  handed, pooled and closed record the
    history of the pool: every socket handed out, how many of them came from the
    pre-allocated pool, and every closesocket call.
  */
module SocketPool {
  import opened Ids

  // free: shared_socket_pool_;  inUse: socket_inuse_pool_;  size: poolsize_
  // lowMark: size_to_rellocate;  refill: reallocate_socket_num_pertime
  datatype Pool = Pool(free: set<nat>, inUse: set<nat>, next: nat, size: nat, lowMark: nat, refill: nat,
                       handed: set<nat>, pooled: nat, closed: multiset<nat>)

  function Grow(p: Pool, n: nat): Pool {
    p.(free := p.free + Range(p.next, n), next := p.next + n, size := p.size + n)
  }

  lemma GrowNone(p: Pool)
    ensures Grow(p, 0) == p
  {
  }

  lemma GrowNext(p: Pool, n: nat)
    ensures var q := Grow(p, n);
            Grow(p, n + 1) == q.(free := q.free + {q.next}, next := q.next + 1, size := q.size + 1)
  {
    hide Range;
    RangeNext(p.free, p.next, n);
  }

  function Refilled(p: Pool): Pool {
    if |p.free| < p.lowMark then Grow(p, p.refill) else p
  }

  predicate CanTake(p: Pool, q: nat) {
    var r := Refilled(p);
    if r.free == {} then q == r.next else q in r.free
  }

  function Take(p: Pool, q: nat): Pool {
    var r := Refilled(p).(inUse := p.inUse + {q}, handed := p.handed + {q});
    if r.free == {} then r.(next := r.next + 1)
    else r.(free := r.free - {q}, pooled := r.pooled + 1)
  }

  function Close(p: Pool, q: nat): Pool {
    p.(inUse := p.inUse - {q}, closed := p.closed + multiset{q})
  }

  function Destroy(p: Pool): Pool {
    p.(free := {}, inUse := {}, closed := p.closed + multiset(p.inUse))
  }

  // Bookkeeping that holds whatever is closed.
  ghost predicate Accounts(p: Pool) {
    && (forall q | q in p.free :: q < p.next && q !in p.handed)
    && (forall q | q in p.handed :: q < p.next)
    && p.inUse <= p.handed
    && p.size == |p.free| + p.pooled
    && p.pooled <= |p.handed|
  }

  // Every socket handed out is open and in use, or was closed exactly once.
  ghost predicate ClosedOnce(p: Pool) {
    forall q :: p.closed[q] == if q in p.handed && q !in p.inUse then 1 else 0
  }

  lemma GrowAccounts(p: Pool, n: nat)
    requires Accounts(p)
    ensures Accounts(Grow(p, n))
  {
    assert p.free !! Range(p.next, n);
  }

  /** A socket is never handed out twice, and taking one keeps the books: the pool size is
      the free sockets plus the pooled ones ever handed out. */
  lemma TakeAccounts(p: Pool, q: nat)
    requires Accounts(p) && CanTake(p, q)
    ensures q !in p.handed && Accounts(Take(p, q))
    ensures Take(p, q).handed == p.handed + {q} && Take(p, q).inUse == p.inUse + {q}
    ensures Take(p, q).closed == p.closed
    ensures ClosedOnce(p) ==> ClosedOnce(Take(p, q))
  {
    if |p.free| < p.lowMark { GrowAccounts(p, p.refill); }
  }

  /** Taking a socket refills the pool exactly when fewer than the mark are free: the size then grows by
      the refill, and a socket outside the pool is made only if even that leaves none free. */
  lemma TakeRefills(p: Pool, q: nat)
    requires Accounts(p) && CanTake(p, q)
    ensures var p', more := Take(p, q), if |p.free| < p.lowMark then p.refill else 0;
            && p'.size == p.size + more
            && |p'.free| == (if |p.free| + more == 0 then 0 else |p.free| + more - 1)
            && p'.pooled == p.pooled + (if |p.free| + more == 0 then 0 else 1)
            && (|p.free| + more > 0 ==> q in p.free || p.next <= q < p.next + more)
  {
    assert p.free !! Range(p.next, p.refill);
    var r := Refilled(p);
    assert |r.free| == |p.free| + if |p.free| < p.lowMark then p.refill else 0;
  }

  /** Closing a socket keeps every socket closed at most once exactly when the socket is in use. */
  lemma CloseOnceExactly(p: Pool, q: nat)
    requires ClosedOnce(p) && p.inUse <= p.handed
    ensures ClosedOnce(Close(p, q)) <==> q in p.inUse
  {
    var p' := Close(p, q);
    assert p'.closed[q] == p.closed[q] + 1;
    if q in p.inUse {
      forall x ensures p'.closed[x] == if x in p'.handed && x !in p'.inUse then 1 else 0 {
        assert p'.closed[x] == p.closed[x] + if x == q then 1 else 0;
      }
    }
  }

  /** In-use sockets are those handed out and not closed. */
  lemma InUseCount(p: Pool)
    requires Accounts(p) && ClosedOnce(p)
    ensures |p.inUse| == |p.handed| - |p.closed|
  {
    var gone := p.handed - p.inUse;
    assert p.closed == multiset(gone);
    assert |p.handed| == |gone| + |p.inUse| by {
      assert p.handed == gone + p.inUse;
    }
  }

  /** Destroying the pool empties it and closes every socket still in use, so that every socket ever
      handed out has been closed exactly once; destroying it again closes nothing. */
  lemma DestroyClosesAll(p: Pool)
    requires ClosedOnce(p) && p.inUse <= p.handed
    ensures forall q :: Destroy(p).closed[q] == if q in p.handed then 1 else 0
    ensures Destroy(p).free == {} && Destroy(p).inUse == {} && Destroy(p).handed == p.handed
    ensures Destroy(Destroy(p)) == Destroy(p)
  {
  }

  class SocketManager {
    var free: set<nat>
    var inUse: set<nat>
    var next: nat
    var size: nat
    const lowMark: nat
    const refill: nat
    ghost var handed: set<nat>
    ghost var pooled: nat
    ghost var closed: multiset<nat>

    ghost function View(): Pool
      reads this
    {
      Pool(free, inUse, next, size, lowMark, refill, handed, pooled, closed)
    }

    constructor (lowMark: nat, refill: nat)
      ensures View() == Pool({}, {}, 0, 0, lowMark, refill, {}, 0, multiset{})
    {
      this.lowMark, this.refill := lowMark, refill;
      free, inUse, next, size := {}, {}, 0, 0;
      handed, pooled, closed := {}, 0, multiset{};
    }

    method AllocateUpTo(newSize: nat)
      requires size <= newSize
      modifies this
      ensures View() == Grow(old(View()), newSize - old(size))
    {
      hide Grow;
      ghost var p := View();
      GrowNone(p);
      while size < newSize
        invariant p.size <= size <= newSize
        invariant View() == Grow(p, size - p.size)
      {
        GrowNext(p, size - p.size);
        free := free + {next};
        next := next + 1;
        size := size + 1;
      }
    }

    method PreAllocate(n: int) returns (ok: bool)
      modifies this
      ensures ok == (n > 0)
      ensures View() == if n > old(size) then Grow(old(View()), n - old(size)) else old(View())
    {
      if n <= 0 {
        return false;
      }
      if size < n {
        AllocateUpTo(n);
      }
      return true;
    }

    method GetNextUnuseSocket() returns (q: nat)
      modifies this
      ensures CanTake(old(View()), q) && View() == Take(old(View()), q)
    {
      if |free| < lowMark {
        AllocateUpTo(size + refill);
      }
      if |free| > 0 {
        q :| q in free;
        inUse := inUse + {q};
        free := free - {q};
        pooled := pooled + 1;
      } else {
        q := next;
        next := next + 1;
        inUse := inUse + {q};
      }
      handed := handed + {q};
    }

    method CloseSock(q: nat)
      modifies this
      ensures View() == Close(old(View()), q)
    {
      closed := closed + multiset{q};
      if q in inUse {
        inUse := inUse - {q};
      }
    }

    method DestroyPool()
      modifies this
      ensures View() == Destroy(old(View()))
    {
      ghost var done: set<nat> := {};
      var todo := inUse;
      while todo != {}
        invariant todo !! done && todo + done == inUse
        invariant closed == old(closed) + multiset(done)
        modifies this`closed
        decreases todo
      {
        var q :| q in todo;
        closed := closed + multiset{q};
        assert multiset(done + {q}) == multiset(done) + multiset{q};
        todo, done := todo - {q}, done + {q};
      }
      free, inUse := {}, {};
    }
  }
}
