/** The per-connection context (GT_SocketConetxt): the completion key of a socket. */
module SocketContexts {
  import opened BufferPool

  datatype SocketType = NullSocket | ListenSocket | AcceptedSocket

  // cache: the keys of socket_io_buffer_cache_;  timer: time_control_;  checks: check_time_
  datatype Context = Context(sock: nat, kind: SocketType, cache: set<nat>, timer: int, checks: int)

  class SocketContext {
    const id: nat       // stands for the context's address
    const sock: nat
    const kind: SocketType
    var cache: set<nat>
    var timer: int
    var checks: int

    ghost function View(): Context
      reads this
    {
      Context(sock, kind, cache, timer, checks)
    }

    constructor (id: nat, sock: nat, kind: SocketType, now: int)
      ensures this.id == id && View() == Context(sock, kind, {}, now, 1)
    {
      this.id, this.sock, this.kind := id, sock, kind;
      cache, timer, checks := {}, now, 1;
    }

    method ResetTimer(now: int)
      modifies this
      ensures View() == old(View()).(timer := now)
    {
      timer := now;
    }

    method IncrementCheckTime()
      modifies this
      ensures View() == old(View()).(checks := old(checks) + 1)
    {
      checks := checks + 1;
    }

    method ResetCheckTime()
      modifies this
      ensures View() == old(View()).(checks := 1)
    {
      checks := 1;
    }

    method AddIOContext2Cache(b: nat)
      modifies this
      ensures View() == old(View()).(cache := old(cache) + {b})
    {
      cache := cache + {b};
    }

    // The buffer goes back to the pool whether or not this context holds it.
    method ReleaseUsedIOContext(pool: BufferManager, b: nat, die: Die)
      modifies this, pool
      ensures View() == old(View()).(cache := old(cache) - {b})
      ensures pool.View() == Release(old(pool.View()), b, Reuses(die))
    {
      var held := b in cache;
      pool.ReleaseIOBuffer(b, die);
      if held {
        cache := cache - {b};
      }
    }

    method HasIOBuffer(b: nat) returns (found: bool)
      ensures found == (b in View().cache)
    {
      found := b in cache;
    }
  }
}
