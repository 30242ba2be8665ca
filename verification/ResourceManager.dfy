/** The context registry and its idle sweep (GT_Resource_Manager). */
module ResourceManagers {
  import opened BufferPool
  import Sockets = SocketPool
  import opened SocketContexts

  // ctxs: completion_key_ptr_cache_;  addrs: completion_key_address_hash_set_;
  // next: the next context id;  limit: out_date_time_control_
  datatype Resources = Resources(buf: Pool, sk: Sockets.Pool,
                                 ctxs: map<nat, Context>, addrs: set<nat>, next: nat, limit: int)

  // One visit of the sweep: the context visited, the clock reading made there, and,
  // should the context be released, which of its buffers are recycled.
  datatype Visit = Visit(key: nat, now: int, kept: set<nat>)

  function Create(r: Resources, sock: nat, kind: SocketType, now: int): Resources {
    r.(ctxs := r.ctxs[r.next := Context(sock, kind, {}, now, 1)], addrs := r.addrs + {r.next}, next := r.next + 1)
  }

  function ReleaseContext(r: Resources, k: nat, kept: set<nat>): Resources
    requires k in r.ctxs
  {
    r.(buf := ReleaseAll(r.buf, r.ctxs[k].cache, kept),
       sk := Sockets.Close(r.sk, r.ctxs[k].sock),
       ctxs := r.ctxs - {k},
       addrs := r.addrs - {k})
  }

  function Clear(r: Resources): Resources {
    r.(buf := r.buf.(free := {}, inUse := {}), sk := Sockets.Destroy(r.sk), ctxs := map[], addrs := {})
  }

  predicate Expired(c: Context, now: int, limit: int) {
    now - c.timer > limit && c.kind == AcceptedSocket
  }

  function VisitOne(r: Resources, v: Visit): Resources {
    if v.key !in r.ctxs || !Expired(r.ctxs[v.key], v.now, r.limit) then r
    else if r.ctxs[v.key].checks == 1 then r.(ctxs := r.ctxs[v.key := r.ctxs[v.key].(checks := 2)])
    else if r.ctxs[v.key].checks == 2 then ReleaseContext(r, v.key, v.kept)
    else r
  }

  // The sweep as the code performs it: one visit after another, on the registry left by the visits before.
  function Sweep(r: Resources, visits: seq<Visit>): Resources {
    if visits == [] then r
    else VisitOne(Sweep(r, visits[..|visits| - 1]), visits[|visits| - 1])
  }

  // The visits walk the address set: every registered context, once.
  ghost predicate Walks(addrs: set<nat>, visits: seq<Visit>) {
    && (forall i, j | 0 <= i < j < |visits| :: visits[i].key != visits[j].key)
    && (forall i | 0 <= i < |visits| :: visits[i].key in addrs)
    && (forall k | k in addrs :: exists i :: 0 <= i < |visits| && visits[i].key == k)
  }

  // The map and the address set hold the same contexts, each with an id handed out.
  ghost predicate Registered(ctxs: map<nat, Context>, addrs: set<nat>, next: nat) {
    && addrs == ctxs.Keys
    && (forall k | k in ctxs :: 0 < k < next)
  }

  predicate Evicts(r: Resources, v: Visit) {
    v.key in r.ctxs && Expired(r.ctxs[v.key], v.now, r.limit) && r.ctxs[v.key].checks == 2
  }

  // What a visit leaves of its own context, if it leaves it registered.
  function Aged(r: Resources, v: Visit): Context
    requires v.key in r.ctxs
  {
    var c := r.ctxs[v.key];
    if Expired(c, v.now, r.limit) && c.checks == 1 then c.(checks := 2) else c
  }

  /** The sweep is exact: though each visit may remove from the collections being walked,
      every context is judged by the state it had before the sweep, and its own visit alone
      decides whether it is removed, advanced to the second check or left alone. */
  lemma {:induction false} SweepIsExact(r: Resources, visits: seq<Visit>)
    requires Registered(r.ctxs, r.addrs, r.next)
    requires forall i, j | 0 <= i < j < |visits| :: visits[i].key != visits[j].key
    ensures var r' := Sweep(r, visits);
            && Registered(r'.ctxs, r'.addrs, r'.next)
            && r'.next == r.next && r'.limit == r.limit && r'.ctxs.Keys <= r.ctxs.Keys
            && (forall i | 0 <= i < |visits| && visits[i].key in r.ctxs ::
                  && (visits[i].key in r'.ctxs <==> !Evicts(r, visits[i]))
                  && (visits[i].key in r'.ctxs ==> r'.ctxs[visits[i].key] == Aged(r, visits[i])))
            && (forall k | k in r.ctxs && (forall i | 0 <= i < |visits| :: visits[i].key != k) ::
                  k in r'.ctxs && r'.ctxs[k] == r.ctxs[k])
  {
    if visits != [] {
      var before, v := visits[..|visits| - 1], visits[|visits| - 1];
      SweepIsExact(r, before);
      hide ReleaseAll;
      assert forall i | 0 <= i < |before| :: before[i] == visits[i];
      assert v.key in r.ctxs ==> v.key in Sweep(r, before).ctxs && Sweep(r, before).ctxs[v.key] == r.ctxs[v.key];
    }
  }

  /** A whole sweep keeps exactly the contexts that are not over the limit for the second
      time, in whatever order the contexts are visited. */
  lemma SweepKeeps(r: Resources, visits: seq<Visit>)
    requires Registered(r.ctxs, r.addrs, r.next) && Walks(r.addrs, visits)
    ensures Sweep(r, visits).ctxs.Keys == r.ctxs.Keys - set v | v in visits && Evicts(r, v) :: v.key
  {
    SweepIsExact(r, visits);
    var r', gone := Sweep(r, visits), set v | v in visits && Evicts(r, v) :: v.key;
    forall k ensures k in r'.ctxs <==> k in r.ctxs && k !in gone {
      if k in r.ctxs {
        var i :| 0 <= i < |visits| && visits[i].key == k;
        if k in gone {
          var v :| v in visits && Evicts(r, v) && v.key == k;
        } else {
          assert visits[i] in visits;
        }
      }
    }
  }

  // The visit a sweep makes to context k: the clock read there, and the dice its buffers get if it is released.
  function VisitAt(r: Resources, k: nat, now: int, dice: nat -> Die): Visit {
    Visit(k, now, if k in r.ctxs then Reused(r.ctxs[k].cache, dice) else {})
  }

  // The contexts still to be visited are as they were.
  ghost predicate Untouched(ctxs: map<nat, Context>, todo: set<nat>, ctxs': map<nat, Context>) {
    forall k | k in todo :: (k in ctxs' <==> k in ctxs) && (k in ctxs ==> ctxs'[k] == ctxs[k])
  }

  lemma VisitSpares(r: Resources, r1: Resources, todo: set<nat>, k: nat, now: int, dice: nat -> Die)
    requires Untouched(r.ctxs, todo, r1.ctxs) && k in todo
    ensures VisitAt(r, k, now, dice) == VisitAt(r1, k, now, dice)
    ensures Untouched(r.ctxs, todo - {k}, VisitOne(r1, VisitAt(r1, k, now, dice)).ctxs)
  {
    hide Reused;
  }

  // The contexts of r not in todo have been visited, each once, at their clock readings.
  ghost predicate Walked(r: Resources, todo: set<nat>, visits: seq<Visit>, clock: nat -> int, dice: nat -> Die) {
    && todo <= r.addrs
    && (forall i | 0 <= i < |visits| :: visits[i].key in r.addrs && visits[i].key !in todo)
    && (forall i | 0 <= i < |visits| :: visits[i] == VisitAt(r, visits[i].key, clock(visits[i].key), dice))
    && (forall i, j | 0 <= i < j < |visits| :: visits[i].key != visits[j].key)
    && (forall k | k in r.addrs && k !in todo :: exists i :: 0 <= i < |visits| && visits[i].key == k)
  }

  lemma NotWalked(r: Resources, clock: nat -> int, dice: nat -> Die)
    ensures Walked(r, r.addrs, [], clock, dice)
  {
  }

  lemma WalkOn(r: Resources, todo: set<nat>, visits: seq<Visit>, clock: nat -> int, dice: nat -> Die, k: nat)
    requires Walked(r, todo, visits, clock, dice) && k in todo
    ensures var v := VisitAt(r, k, clock(k), dice);
            && Walked(r, todo - {k}, visits + [v], clock, dice)
            && Sweep(r, visits + [v]) == VisitOne(Sweep(r, visits), v)
  {
    var visits' := visits + [VisitAt(r, k, clock(k), dice)];
    assert visits'[..|visits|] == visits;
    forall x | x in r.addrs && x !in todo - {k} ensures exists i :: 0 <= i < |visits'| && visits'[i].key == x {
      if x == k {
        assert visits'[|visits|].key == k;
      } else {
        var i :| 0 <= i < |visits| && visits[i].key == x;
        assert visits'[i].key == x;
      }
    }
  }

  lemma AllWalked(r: Resources, visits: seq<Visit>, clock: nat -> int, dice: nat -> Die)
    requires Walked(r, {}, visits, clock, dice)
    ensures Walks(r.addrs, visits)
    ensures forall i | 0 <= i < |visits| :: visits[i] == VisitAt(r, visits[i].key, clock(visits[i].key), dice)
  {
  }

  class ResourceManager {
    const pool: BufferManager
    const socks: Sockets.SocketManager
    const limit: int
    var ctxs: map<nat, SocketContext>
    var addrs: set<nat>
    var next: nat
    var checkEnded: bool    // end_connect_check_ato_

    // Every context is registered under its own id.
    ghost predicate Valid()
      reads this, ctxs.Values
    {
      && (forall k | k in ctxs :: ctxs[k].id == k)
      && (forall k | k in ctxs :: 0 < k < next)
      && 0 < next
    }

    ghost function Contexts(): map<nat, Context>
      reads this, ctxs.Values
    {
      map k | k in ctxs :: ctxs[k].View()
    }

    ghost function View(): Resources
      reads this, pool, socks, ctxs.Values
    {
      Resources(pool.View(), socks.View(), Contexts(), addrs, next, limit)
    }

    constructor (pool: BufferManager, socks: Sockets.SocketManager, limit: int)
      ensures Valid() && this.pool == pool && this.socks == socks
      ensures View() == Resources(pool.View(), socks.View(), map[], {}, 1, limit) && !checkEnded
    {
      this.pool, this.socks, this.limit := pool, socks, limit;
      ctxs, addrs, next, checkEnded := map[], {}, 1, false;
    }

    method CreateNewSocketContext(sock: nat, kind: SocketType, now: int) returns (ctx: SocketContext)
      requires Valid()
      modifies this
      ensures Valid() && fresh(ctx) && ctx.id == old(next)
      ensures ctxs == old(ctxs)[ctx.id := ctx]
      ensures View() == Create(old(View()), sock, kind, now)
    {
      ctx := new SocketContext(next, sock, kind, now);
      ctxs := ctxs[next := ctx];
      addrs := addrs + {next};
      next := next + 1;
      assert Contexts() == old(Contexts())[ctx.id := ctx.View()];
    }

    method GetCompletionKeyPtr(key: nat) returns (ctx: SocketContext?)
      requires Valid()
      ensures ctx != null <==> key in View().ctxs
      ensures ctx != null ==> ctx.id == key && ctx in ctxs.Values && ctx.View() == View().ctxs[key]
    {
      ctx := if key in ctxs then ctxs[key] else null;
    }

    // Release every buffer of the context, close its socket, and unregister it if it is registered;
    // a context released before has its socket closed once more.
    method ReleaseContext_(ctx: SocketContext, dice: nat -> Die)
      requires Valid() && (ctx.id in ctxs ==> ctxs[ctx.id] == ctx)
      modifies this, pool, socks
      ensures Valid() && ctxs == old(ctxs) - {ctx.id}
      ensures ctx.id in old(ctxs) ==> View() == ReleaseContext(old(View()), ctx.id, Reused(ctx.cache, dice))
      ensures ctx.id !in old(ctxs) ==>
        View() == old(View()).(buf := ReleaseAll(old(pool.View()), ctx.cache, Reused(ctx.cache, dice)),
                               sk := Sockets.Close(old(socks.View()), ctx.sock))
    {
      ReleaseBuffers(ctx.cache, dice);
      hide ReleaseAll, Release, Sockets.Close, Reused;
      var k := ctx.id;
      socks.CloseSock(ctx.sock);
      if k in ctxs {
        ctxs := ctxs - {k};
        if k in addrs {
          addrs := addrs - {k};
        }
      }
      assert Contexts() == old(Contexts()) - {k};
    }

    // The loop of ReleaseContext_.
    method ReleaseBuffers(cache: set<nat>, dice: nat -> Die)
      modifies pool
      ensures pool.View() == ReleaseAll(old(pool.View()), cache, Reused(cache, dice))
    {
      hide ReleaseAll, Release;
      ghost var done: set<nat> := {};
      var todo := cache;
      ghost var before := pool.View();
      ReleaseAllNone(before);
      assert Reused({}, dice) == {};
      while todo != {}
        invariant todo !! done && todo + done == cache
        invariant pool.View() == ReleaseAll(before, done, Reused(done, dice))
        decreases todo
      {
        var b :| b in todo;
        pool.ReleaseIOBuffer(b, dice(b));
        ReleaseAllNext(before, done, Reused(done, dice), b, Reuses(dice(b)));
        todo, done := todo - {b}, done + {b};
        assert Reused(done, dice)
            == if Reuses(dice(b)) then Reused(done - {b}, dice) + {b} else Reused(done - {b}, dice);
        assert done - {b} + {b} == done;
      }
    }

    // One visit of the sweep.
    method CheckContext(k: nat, now: int, dice: nat -> Die)
      requires Valid()
      modifies this, pool, socks, ctxs.Values
      ensures Valid() && ctxs.Values <= old(ctxs.Values)
      ensures View() == VisitOne(old(View()), VisitAt(old(View()), k, now, dice))
    {
      if k in ctxs {
        var ctx := ctxs[k];
        if now - ctx.timer > limit && ctx.kind == AcceptedSocket {
          if ctx.checks == 1 {
            ctx.IncrementCheckTime();
            assert Contexts() == old(Contexts())[k := old(Contexts())[k].(checks := 2)];
          } else if ctx.checks == 2 {
            ctx.ResetCheckTime();
            assert Contexts() - {k} == old(Contexts()) - {k};
            ReleaseContext_(ctx, dice);
          }
        }
      }
    }

    method ResourceCollector(clock: nat -> int, dice: nat -> Die) returns (ghost visits: seq<Visit>)
      requires Valid()
      modifies this, pool, socks, ctxs.Values
      ensures Valid() && ctxs.Values <= old(ctxs.Values)
      ensures Walks(old(addrs), visits)
      ensures forall i | 0 <= i < |visits| :: visits[i] == VisitAt(old(View()), visits[i].key, clock(visits[i].key), dice)
      ensures View() == Sweep(old(View()), visits)
    {
      visits := [];
      var todo := addrs;
      ghost var r := View();
      assert Untouched(r.ctxs, addrs, r.ctxs);
      hide VisitOne, Walked, VisitAt, Untouched;
      NotWalked(r, clock, dice);
      while todo != {}
        invariant Valid() && ctxs.Values <= old(ctxs.Values)
        invariant Untouched(r.ctxs, todo, View().ctxs)
        invariant Walked(r, todo, visits, clock, dice)
        invariant View() == Sweep(r, visits)
        decreases todo
      {
        var k :| k in todo;
        ghost var r1 := View();
        CheckContext(k, clock(k), dice);
        WalkOn(r, todo, visits, clock, dice, k);
        VisitSpares(r, r1, todo, k, clock(k), dice);
        visits := visits + [VisitAt(r, k, clock(k), dice)];
        todo := todo - {k};
      }
      AllWalked(r, visits, clock, dice);
    }

    // The connection check is told to end, and everything is given up.
    method Finalize()
      requires Valid()
      modifies this, pool, socks
      ensures Valid() && ctxs == map[] && checkEnded
      ensures View() == Clear(old(View()))
    {
      checkEnded := true;
      ctxs, addrs := map[], {};
      socks.DestroyPool();
      pool.Finalize();
    }
  }

}
