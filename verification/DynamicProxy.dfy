/** The proxy pool on a deque updated in place (core/dynamic_proxy.py). */
module DynamicProxy {
  import opened Basics
  import opened ProxyPool

  class Pool {
    var pool: seq<Entry>
    var target: nat
    var refill: real
    var stop: bool
    var daemon: Daemon
    var clock: real

    constructor (t: real)
      ensures View() == State([], 30, 3.0, true, NoDaemon, t)
    {
      pool, target, refill, stop, daemon, clock := [], 30, 3.0, true, NoDaemon, t;
    }

    function View(): State
      reads this
    {
      State(pool, target, refill, stop, daemon, clock)
    }

    /** `_evict_expired_locked`. */
    method EvictExpired(now: real) returns (removed: nat)
      modifies this`pool
      ensures pool == Evict(old(pool), now)
      ensures removed == |old(pool)| - |pool|
    {
      removed := 0;
      while |pool| > 0 && now - pool[0].born > 60.0
        invariant Evict(pool, now) == Evict(old(pool), now)
        invariant removed + |pool| == |old(pool)|
      {
        pool := pool[1..];
        removed := removed + 1;
      }
    }

    /** `_push_to_pool`. */
    method PushToPool(url: string, t1: real, t2: real)
      modifies this`pool
      ensures pool == Push(old(pool), target, url, t1, t2)
    {
      if url == "" {
        return;
      }
      var _ := EvictExpired(t1);
      hide Evict;
      pool := pool + [Entry(url, t2)];
      ghost var longer := pool;
      while |pool| > target
        invariant DropOldest(pool, target) == DropOldest(longer, target)
      {
        pool := pool[1..];
      }
    }

    /** `_pop_from_pool`. */
    method PopFromPool(now: real) returns (got: Option<string>)
      modifies this`pool, this`clock
      ensures View() == Step(old(View()), Borrow(now))
      ensures got == match Pop(old(pool), now).1 case None => None case Some(e) => Some(e.url)
    {
      hide Evict;
      clock := now;
      var _ := EvictExpired(now);
      if |pool| == 0 {
        return None;
      }
      got := Some(pool[|pool| - 1].url);
      pool := pool[..|pool| - 1];
    }

    /** `configure_pool_for_concurrency`. */
    method ConfigureForConcurrency(concurrency: int)
      modifies this`target, this`refill
      ensures View() == Step(old(View()), Configure(concurrency))
    {
      var c := Concurrency(concurrency);
      var room := (c as real * 1.5).Floor;
      target := if room > 30 then room else 30;
      var interval := 60.0 / c as real;
      if interval > 5.0 {
        interval := 5.0;
      }
      if interval < 1.0 {
        interval := 1.0;
      }
      refill := interval;
    }

    /** The part of the daemon's loop before the fetch; true when it goes on to fetch. */
    method BeginCycle(ready: bool, now: real) returns (fetch: bool)
      requires Enabled(View(), ProxyPool.Event.BeginCycle(ready, now))
      modifies this
      ensures View() == Step(old(View()), ProxyPool.Event.BeginCycle(ready, now))
      ensures fetch <==> daemon.Fetching?
    {
      clock := now;
      fetch := false;
      if ready {
        var _ := EvictExpired(now);
        fetch := |pool| < target;
      }
      daemon := if fetch then Fetching(now) else Waiting(now + refill);
    }

    /** The part after the fetch. */
    method EndCycle(fetched: Option<string>, t1: real, t2: real)
      requires Enabled(View(), ProxyPool.Event.EndCycle(fetched, t1, t2))
      modifies this
      ensures View() == Step(old(View()), ProxyPool.Event.EndCycle(fetched, t1, t2))
    {
      if fetched.Some? {
        PushToPool(fetched.value, t1, t2);
      }
      clock := t2;
      daemon := Waiting(t2 + refill);
    }

    /** `start_pool_daemon`. */
    method StartDaemon(hint: int, now: real)
      modifies this
      ensures View() == Step(old(View()), Start(hint, now))
    {
      if hint > 0 {
        ConfigureForConcurrency(hint);
      }
      clock := now;
      if daemon != NoDaemon {
        return;
      }
      stop := false;
      daemon := Waiting(now);
    }

    /** `stop_pool_daemon`. */
    method StopDaemon()
      modifies this
      ensures View() == Step(old(View()), Stop)
    {
      stop := true;
      pool := [];
    }

    /** `borrow_dynamic_proxy`; `fetched` is what a direct fetch would bring. */
    method BorrowDynamicProxy(enabled: bool, now: real, fetched: Option<string>) returns (proxy: Option<string>)
      modifies this
      ensures View() == if enabled then Step(old(View()), Borrow(now)) else old(View())
      ensures !enabled ==> proxy == None
      ensures enabled ==>
        var got := Pop(old(pool), now).1;
        proxy == if got.Some? && got.value.url != "" then Some(got.value.url) else fetched
    {
      if !enabled {
        return None;
      }
      var pooled := PopFromPool(now);
      if pooled.Some? && pooled.value != "" {
        return pooled;
      }
      proxy := fetched;
    }
  }
}
