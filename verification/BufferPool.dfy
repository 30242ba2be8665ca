/** The receive-buffer pool (GT_IOContextBuffer_Manager).

    A buffer is an id that is never reused.  `Pool` is the value of the manager's
    two containers; the class below performs the manager's updates in place and is
    proved against the functions on `Pool`.
  */
module BufferPool {
  import opened Ids

  const REALLOCATE_BELOW: nat := 50

  // free: io_buffer_cache_;  inUse: the keys of io_buffer_in_use_;
  // next: the first id not yet allocated;  refill: re_allocate_size_
  datatype Pool = Pool(free: set<nat>, inUse: set<nat>, next: nat, refill: nat)

  // What one allocation chose: how many of the refill's allocations succeeded, and which buffer it took.
  datatype Get = Get(grown: nat, b: nat)

  function Grow(p: Pool, n: nat): Pool {
    p.(free := p.free + Range(p.next, n), next := p.next + n)
  }

  lemma GrowNone(p: Pool)
    ensures Grow(p, 0) == p
  {
  }

  lemma GrowNext(p: Pool, n: nat)
    ensures var q := Grow(p, n); Grow(p, n + 1) == q.(free := q.free + {q.next}, next := q.next + 1)
  {
    hide Range;
    RangeNext(p.free, p.next, n);
  }

  // How many of n allocations succeed, where alloc answers one after another.
  function Successes(alloc: nat -> bool, n: nat): (k: nat)
    ensures k <= n
  {
    if n == 0 then 0 else Successes(alloc, n - 1) + if alloc(n - 1) then 1 else 0
  }

  // How many buffers obtaining one adds to the free ones.
  function Added(p: Pool, alloc: nat -> bool): nat {
    if |p.free| < REALLOCATE_BELOW then Successes(alloc, p.refill) else 0
  }

  // A uniform integer from 1 to 10, rolled for every buffer released.
  type Die = x: int | 1 <= x <= 10 witness 1

  predicate Reuses(die: Die) {
    die > 9
  }

  predicate CanGet(p: Pool, g: Get) {
    && g.grown <= (if |p.free| < REALLOCATE_BELOW then p.refill else 0)
    && var q := Grow(p, g.grown);
       if q.free == {} then g.b == q.next else g.b in q.free
  }

  function DoGet(p: Pool, g: Get): Pool {
    var q := Grow(p, g.grown);
    if q.free == {} then q.(inUse := q.inUse + {g.b}, next := q.next + 1)
    else q.(free := q.free - {g.b}, inUse := q.inUse + {g.b})
  }

  function Release(p: Pool, b: nat, recycle: bool): Pool {
    if recycle then p.(free := p.free + {b}) else p.(inUse := p.inUse - {b})
  }

  // Release every buffer of bs, recycling those in kept.
  function ReleaseAll(p: Pool, bs: set<nat>, kept: set<nat>): Pool {
    p.(free := p.free + bs * kept, inUse := p.inUse - (bs - kept))
  }

  lemma ReleaseAllNone(p: Pool)
    ensures ReleaseAll(p, {}, {}) == p
  {
  }

  lemma ReleaseAllNext(p: Pool, bs: set<nat>, kept: set<nat>, b: nat, recycle: bool)
    requires b !in bs && kept <= bs
    ensures ReleaseAll(p, bs + {b}, if recycle then kept + {b} else kept)
         == Release(ReleaseAll(p, bs, kept), b, recycle)
  {
  }

  ghost predicate Bounded(p: Pool) {
    && (forall b | b in p.free :: b < p.next)
    && (forall b | b in p.inUse :: b < p.next)
  }

  /** An allocated buffer was free or is new, is in use afterwards and no longer free,
      and an allocation frees nothing but new buffers. */
  lemma GetIsFresh(p: Pool, g: Get)
    requires CanGet(p, g) && forall b | b in p.free :: b < p.next
    ensures var p' := DoGet(p, g);
            && (g.b in p.free || p.next <= g.b)
            && g.b < p'.next && g.b !in p'.free
            && p.next <= p'.next && p'.inUse == p.inUse + {g.b}
            && (forall b | b in p'.free :: b < p'.next && (b in p.free || p.next <= b))
  {
  }

  lemma {:induction false} AllSucceed(alloc: nat -> bool, n: nat)
    requires forall i: nat | i < n :: alloc(i)
    ensures Successes(alloc, n) == n
  {
    if n > 0 { AllSucceed(alloc, n - 1); }
  }

  /** With fewer than fifty buffers free, obtaining one first tries to allocate a whole refill: every
      allocation that succeeds adds one free buffer.  The buffer comes from outside the pool only if
      none is free even then. */
  lemma GetRefills(p: Pool, alloc: nat -> bool, b: nat)
    requires CanGet(p, Get(Added(p, alloc), b)) && forall x | x in p.free :: x < p.next
    ensures var p', more := DoGet(p, Get(Added(p, alloc), b)), Added(p, alloc);
            && |p'.free| == (if |p.free| + more == 0 then 0 else |p.free| + more - 1)
            && p'.next == p.next + more + (if |p.free| + more == 0 then 1 else 0)
            && (|p.free| + more > 0 ==> b in p.free || p.next <= b < p.next + more)
    ensures |p.free| < 50 && (forall i: nat | i < p.refill :: alloc(i)) ==> Added(p, alloc) == p.refill
    ensures |p.free| >= 50 ==> Added(p, alloc) == 0
  {
    if forall i: nat | i < p.refill :: alloc(i) { AllSucceed(alloc, p.refill); }
    assert p.free !! Range(p.next, Added(p, alloc));
    assert |Grow(p, Added(p, alloc)).free| == |p.free| + Added(p, alloc);
  }

  /** A released buffer is either recycled, and then free though still recorded in use if it was, or
      dropped from the record and not made free; no other buffer is touched. */
  lemma ReleaseExactly(p: Pool, b: nat, die: Die)
    ensures var p' := Release(p, b, Reuses(die));
            && (die == 10 ==> b in p'.free && (b in p'.inUse <==> b in p.inUse))
            && (die < 10 ==> b !in p'.inUse && (b in p'.free <==> b in p.free))
            && (forall x | x != b :: (x in p'.free <==> x in p.free) && (x in p'.inUse <==> x in p.inUse))
            && p'.next == p.next && p'.refill == p.refill
  {
  }

  // The buffers of a released context that are recycled.
  function Reused(cache: set<nat>, dice: nat -> Die): set<nat> {
    set b | b in cache && Reuses(dice(b))
  }

  class BufferManager {
    var free: set<nat>
    var inUse: set<nat>
    var next: nat
    const refill: nat

    ghost function View(): Pool
      reads this
    {
      Pool(free, inUse, next, refill)
    }

    constructor (refill: nat)
      ensures View() == Pool({}, {}, 0, refill)
    {
      this.refill := refill;
      free, inUse, next := {}, {}, 0;
    }

    // Allocate n buffers; an allocation that fails is skipped.
    method Allocate(n: nat, alloc: nat -> bool)
      modifies this
      ensures View() == Grow(old(View()), Successes(alloc, n))
    {
      hide Grow;
      ghost var p := View();
      GrowNone(p);
      var size := 0;
      while size < n
        invariant size <= n
        invariant View() == Grow(p, Successes(alloc, size))
      {
        GrowNext(p, Successes(alloc, size));
        if alloc(size) {
          free := free + {next};
          next := next + 1;
        }
        size := size + 1;
      }
    }

    method PreAllocate(n: nat, alloc: nat -> bool) returns (ok: bool)
      modifies this
      ensures View() == Grow(old(View()), Successes(alloc, n))
      ensures ok == (free != {})
    {
      Allocate(n, alloc);
      ok := free != {};
    }

    method GetNextIOBufferPtr(alloc: nat -> bool) returns (b: nat)
      modifies this
      ensures var g := Get(Added(old(View()), alloc), b);
              CanGet(old(View()), g) && View() == DoGet(old(View()), g)
    {
      if free == {} || |free| < REALLOCATE_BELOW {
        Allocate(refill, alloc);
      }
      if |free| > 0 {
        b :| b in free;
        inUse := inUse + {b};
        free := free - {b};
      } else {
        b := next;
        next := next + 1;
        inUse := inUse + {b};
      }
    }

    method ReleaseIOBuffer(b: nat, die: Die)
      modifies this
      ensures View() == Release(old(View()), b, Reuses(die))
    {
      if die > 9 {
        free := free + {b};
      } else {
        inUse := inUse - {b};
      }
    }

    method Finalize()
      modifies this
      ensures View() == old(View()).(free := {}, inUse := {})
    {
      free, inUse := {}, {};
    }
  }
}
