/** The receive buffers of the select server (GT_Select_Resource_Manager). */
module SelectBuffers {
  import opened Ids

  // deleted records every delete; next is the first buffer not yet allocated.
  datatype Buffers = Buffers(cached: set<nat>, inUse: set<nat>, deleted: multiset<nat>, next: nat)

  // How often a buffer is cached, in use or deleted.
  function Standing(b: Buffers, i: nat): nat {
    b.deleted[i] + (if i in b.cached then 1 else 0) + (if i in b.inUse then 1 else 0)
  }

  // Every allocated buffer is cached, in use, or deleted once, and no buffer is two of these.
  ghost predicate Ledger(b: Buffers) {
    forall i: nat :: Standing(b, i) == if i < b.next then 1 else 0
  }

  function Allocated(b: Buffers, n: nat): Buffers {
    b.(cached := b.cached + Range(b.next, n), next := b.next + n)
  }

  function Refilled(b: Buffers, n: nat): Buffers {
    if b.cached == {} then Allocated(b, n) else b
  }

  function Taken(b: Buffers, n: nat, x: nat): Buffers {
    var r := Refilled(b, n);
    r.(cached := r.cached - {x}, inUse := r.inUse + {x})
  }

  // Only a buffer found in use is deleted.
  function Released(b: Buffers, x: nat): Buffers {
    if x in b.inUse then b.(inUse := b.inUse - {x}, deleted := b.deleted + multiset{x}) else b
  }

  function Cleaned(b: Buffers): Buffers {
    b.(cached := {}, inUse := {}, deleted := b.deleted + multiset(b.cached) + multiset(b.inUse))
  }

  /** Taking a buffer from an empty cache first allocates as many new ones as a refill has; otherwise
      it allocates none.  Either way one cached buffer becomes one in use. */
  lemma TakeRefills(b: Buffers, n: nat, x: nat)
    requires x in Refilled(b, n).cached
    ensures var t, more := Taken(b, n, x), if b.cached == {} then n else 0;
            && t.next == b.next + more && |t.cached| == |b.cached| + more - 1
            && (x in b.cached || b.next <= x < b.next + more)
            && t.inUse == b.inUse + {x} && t.deleted == b.deleted
  {
    assert |Refilled(b, n).cached| == |b.cached| + if b.cached == {} then n else 0 by {
      assert {} + Range(b.next, n) == Range(b.next, n);
    }
  }

  /** An allocation keeps the ledger: the new buffers are cached, and nothing else changes hands. */
  lemma AllocateKeepsLedger(b: Buffers, n: nat)
    requires Ledger(b)
    ensures Ledger(Allocated(b, n)) && |Allocated(b, n).cached| == |b.cached| + n
    ensures Allocated(b, n).inUse == b.inUse && Allocated(b, n).deleted == b.deleted
  {
    var a := Allocated(b, n);
    forall i: nat ensures Standing(a, i) == if i < a.next then 1 else 0 {
      assert Standing(b, i) == if i < b.next then 1 else 0;
    }
    assert b.cached !! Range(b.next, n) by {
      forall i | i in b.cached ensures i < b.next {
        assert Standing(b, i) == if i < b.next then 1 else 0;
      }
    }
  }

  /** Taking a buffer and giving it back keeps the ledger and leaves what else is in use as it
      was: the buffer itself has been deleted, for the first time. */
  lemma UseKeepsLedger(b: Buffers, n: nat, x: nat)
    requires Ledger(b) && x in Refilled(b, n).cached
    ensures Ledger(Taken(b, n, x)) && x !in b.inUse
    ensures Ledger(Released(Taken(b, n, x), x)) && Released(Taken(b, n, x), x).inUse == b.inUse
  {
    var r, t := Refilled(b, n), Taken(b, n, x);
    forall i: nat ensures Standing(r, i) == if i < r.next then 1 else 0 {
      assert Standing(b, i) == if i < b.next then 1 else 0;
    }
    assert Standing(r, x) == 1;
    forall i: nat ensures Standing(t, i) == if i < t.next then 1 else 0 {
      assert Standing(r, i) == if i < r.next then 1 else 0;
    }
    ReleaseKeepsLedger(t, x);
  }

  /** A release deletes a buffer exactly when it is in use, and then for the first time; so
      however often a buffer is released, it is deleted at most once. */
  lemma ReleaseKeepsLedger(b: Buffers, x: nat)
    requires Ledger(b)
    ensures var r := Released(b, x);
            && Ledger(r) && x !in r.inUse && Released(r, x) == r
            && (r.deleted[x] > b.deleted[x] <==> x in b.inUse)
            && (x in b.inUse ==> b.deleted[x] == 0 && r.deleted[x] == 1)
  {
    var r := Released(b, x);
    assert Standing(b, x) == if x < b.next then 1 else 0;
    forall i: nat ensures Standing(r, i) == if i < r.next then 1 else 0 {
      assert Standing(b, i) == if i < b.next then 1 else 0;
    }
  }

  /** Cleaning deletes what is left: every buffer ever allocated has then been deleted exactly once. */
  lemma CleanDeletesAll(b: Buffers)
    requires Ledger(b)
    ensures Ledger(Cleaned(b))
    ensures forall i: nat :: Cleaned(b).deleted[i] == if i < b.next then 1 else 0
  {
    forall i: nat ensures Standing(Cleaned(b), i) == Cleaned(b).deleted[i] == if i < b.next then 1 else 0 {
      assert Standing(b, i) == if i < b.next then 1 else 0;
    }
  }

  class SelectResourceManager {
    var cached: set<nat>
    var inUse: set<nat>
    var next: nat
    ghost var deleted: multiset<nat>
    const refill: nat

    ghost function View(): Buffers
      reads this
    {
      Buffers(cached, inUse, deleted, next)
    }

    constructor (refill: nat)
      ensures this.refill == refill && View() == Buffers({}, {}, multiset{}, 0) && Ledger(View())
    {
      this.refill := refill;
      cached, inUse, deleted, next := {}, {}, multiset{}, 0;
    }

    method AllocatCache()
      modifies this
      ensures View() == Allocated(old(View()), refill)
    {
      var i := 0;
      while i < refill
        invariant i <= refill
        invariant View() == Allocated(old(View()), i)
      {
        RangeNext(old(cached), old(next), i);
        cached := cached + {next};
        next := next + 1;
        i := i + 1;
      }
    }

    // An empty cache is refilled first, which must yield a buffer.
    method GetSelectBuffer() returns (x: nat)
      requires refill > 0
      modifies this
      ensures x in Refilled(old(View()), refill).cached && View() == Taken(old(View()), refill, x)
    {
      if cached == {} {
        AllocatCache();
        assert next - 1 in cached;
      }
      x :| x in cached;
      inUse := inUse + {x};
      cached := cached - {x};
    }

    // A released buffer is deleted; it does not go back to the cache.
    method ReleaseSelectBuffer(x: nat)
      requires x in inUse
      modifies this
      ensures View() == Released(old(View()), x)
    {
      deleted := deleted + multiset{x};
      inUse := inUse - {x};
    }

    method DeleteAll(buffers: set<nat>)
      modifies this`deleted
      ensures deleted == old(deleted) + multiset(buffers)
    {
      ghost var done: set<nat> := {};
      var todo := buffers;
      while todo != {}
        invariant todo !! done && todo + done == buffers
        invariant deleted == old(deleted) + multiset(done)
        decreases todo
      {
        var x :| x in todo;
        deleted := deleted + multiset{x};
        assert multiset(done + {x}) == multiset(done) + multiset{x};
        todo, done := todo - {x}, done + {x};
      }
    }

    method CleanCache()
      modifies this
      ensures View() == Cleaned(old(View()))
    {
      DeleteAll(cached);
      DeleteAll(inUse);
      cached, inUse := {}, {};
    }
  }
}
