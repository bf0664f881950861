/** The pool of pre-fetched proxies with a lifetime, and the daemon that refills it
    (core/dynamic_proxy.py).  Time is a real number of seconds. */
module ProxyPool {
  import opened Basics

  datatype Entry = Entry(url: string, born: real)

  /** The refilling thread: absent, waiting until `wake`, or fetching since `since`. */
  datatype Daemon = NoDaemon | Waiting(wake: real) | Fetching(since: real)

  datatype State = State(pool: seq<Entry>, target: nat, refill: real, stop: bool, daemon: Daemon, clock: real)

  // ---- parameters ------------------------------------------------------------------------------

  function Concurrency(c: int): (r: nat)
    ensures r >= 1
  {
    if c < 1 then 1 else c
  }

  function Target(c: int): nat {
    var room := (Concurrency(c) as real * 1.5).Floor;
    if room > 30 then room else 30
  }

  function Refill(c: int): (g: real)
    ensures 1.0 <= g <= 5.0
  {
    var share := 60.0 / Concurrency(c) as real;
    if share < 1.0 then 1.0 else if share > 5.0 then 5.0 else share
  }

  // ---- the deque ------------------------------------------------------------------------------------

  /** An entry lives for sixty seconds. */
  predicate Expired(e: Entry, now: real) { now - e.born > 60.0 }

  /** Expired entries are dropped from the left until one is still alive. */
  function Evict(pool: seq<Entry>, now: real): (r: seq<Entry>)
    ensures |r| <= |pool|
  {
    if pool != [] && Expired(pool[0], now) then Evict(pool[1..], now) else pool
  }

  /** What eviction leaves is a suffix that starts with an entry that is alive. */
  lemma {:induction false} EvictIsSuffix(pool: seq<Entry>, now: real)
    ensures Evict(pool, now) == pool[|pool| - |Evict(pool, now)|..]
    ensures Evict(pool, now) != [] ==> !Expired(Evict(pool, now)[0], now)
  {
    if pool != [] && Expired(pool[0], now) {
      EvictIsSuffix(pool[1..], now);
    }
  }

  function DropOldest(pool: seq<Entry>, target: nat): (r: seq<Entry>)
    ensures |r| <= target && |r| <= |pool|
  {
    if |pool| > target then DropOldest(pool[1..], target) else pool
  }

  lemma {:induction false} DropOldestIsSuffix(pool: seq<Entry>, target: nat)
    ensures var r := DropOldest(pool, target);
      r == pool[|pool| - |r|..] && |r| == if |pool| > target then target else |pool|
  {
    if |pool| > target {
      DropOldestIsSuffix(pool[1..], target);
    }
  }

  /** Eviction and append read the clock separately, and an empty address is not stored. */
  function Push(pool: seq<Entry>, target: nat, url: string, t1: real, t2: real): seq<Entry> {
    if url == "" then pool else DropOldest(Evict(pool, t1) + [Entry(url, t2)], target)
  }

  function Pop(pool: seq<Entry>, now: real): (seq<Entry>, Option<Entry>) {
    var alive := Evict(pool, now);
    if alive == [] then (alive, None) else (alive[..|alive| - 1], Some(alive[|alive| - 1]))
  }

  // ---- events -------------------------------------------------------------------------------------------

  datatype Event =
    | Configure(c: int)
    | BeginCycle(ready: bool, t: real)
    | EndCycle(fetched: Option<string>, t1: real, t2: real)
    | Borrow(t: real)
    | Snapshot(t: real)
    | Start(hint: int, t: real)
    | Stop
    | Exit

  /** What the thread structure and a clock that does not run backwards allow. */
  predicate Enabled(s: State, e: Event) {
    match e
    case Configure(_) => true
    case BeginCycle(_, t) => s.daemon.Waiting? && !s.stop && s.clock <= t && s.daemon.wake <= t
    case EndCycle(_, t1, t2) => s.daemon.Fetching? && s.clock <= t1 <= t2
    case Borrow(t) => s.clock <= t
    case Snapshot(t) => s.clock <= t
    case Start(_, t) => s.clock <= t
    case Stop => true
    case Exit => s.daemon.Waiting? && s.stop
  }

  function Configured(s: State, c: int): State {
    s.(target := Target(c), refill := Refill(c))
  }

  function Step(s: State, e: Event): State {
    match e
    case Configure(c) => Configured(s, c)
    case BeginCycle(ready, t) =>
      var pool := if ready then Evict(s.pool, t) else s.pool;
      if ready && |pool| < s.target then s.(pool := pool, daemon := Fetching(t), clock := t)
      else s.(pool := pool, daemon := Waiting(t + s.refill), clock := t)
    case EndCycle(fetched, t1, t2) =>
      s.(pool := if fetched.Some? then Push(s.pool, s.target, fetched.value, t1, t2) else s.pool,
         daemon := Waiting(t2 + s.refill), clock := t2)
    case Borrow(t) => s.(pool := Pop(s.pool, t).0, clock := t)
    case Snapshot(t) => s.(pool := Evict(s.pool, t), clock := t)
    case Start(hint, t) =>
      var u := if hint > 0 then Configured(s, hint) else s;
      if u.daemon.NoDaemon? then u.(stop := false, daemon := Waiting(t), clock := t) else u.(clock := t)
    case Stop => s.(stop := true, pool := [])
    case Exit => s.(daemon := NoDaemon)
  }

  ghost predicate Possible(s: State, run: seq<Event>) {
    |run| > 0 ==> Possible(s, run[..|run| - 1]) && Enabled(After(s, run[..|run| - 1]), run[|run| - 1])
  }

  function After(s: State, run: seq<Event>): State {
    if |run| == 0 then s else Step(After(s, run[..|run| - 1]), run[|run| - 1])
  }

  // ---- multiples of the refill interval ----------------------------------------------------------------------------

  function Times(n: nat, g: real): real {
    if n == 0 then 0.0 else Times(n - 1, g) + g
  }

  lemma {:induction false} TimesIsProduct(n: nat, g: real)
    ensures Times(n, g) == n as real * g
  {
    if n > 0 {
      TimesIsProduct(n - 1, g);
    }
  }

  lemma {:induction false} TimesMonotone(m: nat, n: nat, g: real)
    requires m <= n && g > 0.0
    ensures Times(m, g) <= Times(n, g)
    decreases n
  {
    if m < n {
      TimesMonotone(m, n - 1, g);
    }
  }

  // ---- invariants ----------------------------------------------------------------------------------------------

  ghost predicate Sorted(pool: seq<Entry>, clock: real) {
    (forall i, j :: 0 <= i < j < |pool| ==> pool[i].born <= pool[j].born)
    && (forall i :: 0 <= i < |pool| ==> pool[i].born <= clock)
  }

  /** From index `k` on, neighbours are at least `g` apart. */
  ghost predicate Spaced(pool: seq<Entry>, g: real, k: nat) {
    forall i :: k < i < |pool| ==> pool[i].born >= pool[i - 1].born + g
  }

  /** The youngest entry (if it is past index `k`) is at least `g` older than the time at which
      the daemon looks at the pool again. */
  ghost predicate Rested(s: State, g: real, k: nat) {
    |s.pool| > k ==>
      match s.daemon
      case NoDaemon => s.stop
      case Waiting(wake) => s.pool[|s.pool| - 1].born + g <= wake
      case Fetching(since) => s.pool[|s.pool| - 1].born + g <= since
  }

  /** A stopped daemon still delivers what it is fetching: at most one entry.  `k` is 1 when
      such a stray entry may be at the front. */
  ghost predicate Inv(s: State, g: real, k: nat) {
    k <= 1 && g > 0.0 && s.refill >= g && Sorted(s.pool, s.clock) && Spaced(s.pool, g, k) && Rested(s, g, k)
    && (s.daemon.Fetching? ==> s.daemon.since <= s.clock)
    && (k == 0 ==> !s.stop && !s.daemon.NoDaemon?)
    && (s.stop ==> |s.pool| <= 1 && (s.daemon.Fetching? ==> s.pool == []))
    && (s.daemon.NoDaemon? ==> s.stop)
    && (|s.pool| > k ==> Times(|s.pool| - k, g) <= 60.0 + g)
  }

  /** Concurrency hints stay so low that the refill interval never drops below `g`. */
  predicate Slow(e: Event, g: real) {
    (e.Configure? ==> Refill(e.c) >= g) && (e.Start? && e.hint > 0 ==> Refill(e.hint) >= g)
  }

  lemma SuffixIsSpaced(pool: seq<Entry>, d: nat, g: real, k: nat)
    requires Spaced(pool, g, k) && d <= |pool|
    ensures Spaced(pool[d..], g, k)
  {
    var r := pool[d..];
    forall i | k < i < |r| ensures r[i].born >= r[i - 1].born + g {
      assert r[i] == pool[d + i] && r[i - 1] == pool[d + i - 1];
    }
  }

  lemma SuffixIsSorted(pool: seq<Entry>, d: nat, clock: real, later: real)
    requires Sorted(pool, clock) && d <= |pool| && clock <= later
    ensures Sorted(pool[d..], later)
  {
    var r := pool[d..];
    forall i, j | 0 <= i < j < |r| ensures r[i].born <= r[j].born {
      assert r[i] == pool[d + i] && r[j] == pool[d + j];
    }
    forall i | 0 <= i < |r| ensures r[i].born <= later {
      assert r[i] == pool[d + i];
    }
  }

  /** Spaced births span at least their number of gaps. */
  lemma {:induction false} Span(pool: seq<Entry>, g: real, k: nat, n: nat)
    requires Spaced(pool, g, k) && k < n <= |pool|
    ensures pool[n - 1].born >= pool[k].born + Times(n - 1 - k, g)
    decreases n
  {
    if n - 1 > k {
      Span(pool, g, k, n - 1);
    }
  }

  /** After an eviction at `t`, fewer than `TTL / g` of the resting entries are left. */
  lemma RestingCount(pool: seq<Entry>, g: real, k: nat, t: real)
    requires g > 0.0 && Spaced(pool, g, k) && Sorted(pool, t) && |pool| > k
    requires !Expired(pool[0], t) && pool[|pool| - 1].born + g <= t
    ensures Times(|pool| - k, g) <= 60.0
  {
    Span(pool, g, k, |pool|);
    assert pool[0].born <= pool[k].born;
  }

  lemma EvictKeeps(s: State, g: real, k: nat, t: real)
    requires Inv(s, g, k) && s.clock <= t
    ensures Inv(s.(pool := Evict(s.pool, t), clock := t), g, k)
    ensures Evict(s.pool, t) != [] ==> !Expired(Evict(s.pool, t)[0], t)
  {
    hide Inv, Evict;
    EvictIsSuffix(s.pool, t);
    ShrinkKeeps(s, |s.pool| - |Evict(s.pool, t)|, g, k, t);
  }

  /** Dropping the `d` oldest entries at `t`. */
  lemma ShrinkKeeps(s: State, d: nat, g: real, k: nat, t: real)
    requires Inv(s, g, k) && s.clock <= t && d <= |s.pool|
    ensures Inv(s.(pool := s.pool[d..], clock := t), g, k)
  {
    hide Times, Sorted, Spaced;
    var r := s.pool[d..];
    assert |r| == |s.pool| - d;
    SuffixIsSpaced(s.pool, d, g, k);
    SuffixIsSorted(s.pool, d, s.clock, t);
    if |r| > k {
      assert r[|r| - 1] == s.pool[|s.pool| - 1];
      TimesMonotone(|r| - k, |s.pool| - k, g);
    }
  }

  lemma PopKeeps(s: State, g: real, k: nat, t: real)
    requires Inv(s, g, k) && s.clock <= t
    ensures Inv(s.(pool := Pop(s.pool, t).0, clock := t), g, k)
  {
    EvictKeeps(s, g, k, t);
    DropYoungestKeeps(s.(pool := Evict(s.pool, t), clock := t), g, k);
  }

  lemma DropYoungestKeeps(s: State, g: real, k: nat)
    requires Inv(s, g, k)
    ensures s.pool != [] ==> Inv(s.(pool := s.pool[..|s.pool| - 1]), g, k)
  {
    hide Times;
    if s.pool != [] {
      var r := s.pool[..|s.pool| - 1];
      assert Spaced(r, g, k) by {
        forall i | k < i < |r| ensures r[i].born >= r[i - 1].born + g {
          assert s.pool[i].born >= s.pool[i - 1].born + g;
        }
      }
      if |r| > k {
        assert r[|r| - 1].born <= s.pool[|s.pool| - 1].born;
        TimesMonotone(|r| - k, |s.pool| - k, g);
      }
    }
  }

  lemma PushKeeps(s: State, g: real, k: nat, url: string, t1: real, t2: real)
    requires Inv(s, g, k) && s.daemon.Fetching? && s.clock <= t1 <= t2
    ensures Inv(s.(pool := Push(s.pool, s.target, url, t1, t2), daemon := Waiting(t2 + s.refill), clock := t2), g, k)
  {
    hide Inv, Evict, DropOldest, Times;
    if url == "" {
      Settle(s, g, k, t2);
    } else {
      EvictKeeps(s, g, k, t1);
      var u := s.(pool := Evict(s.pool, t1), clock := t1);
      AppendKeeps(u, g, k, url, t2);
      var w := u.(pool := u.pool + [Entry(url, t2)], daemon := Waiting(t2 + s.refill), clock := t2);
      DropKeeps(w, g, k);
    }
  }

  lemma DropKeeps(s: State, g: real, k: nat)
    requires Inv(s, g, k)
    ensures Inv(s.(pool := DropOldest(s.pool, s.target)), g, k)
  {
    hide Inv, DropOldest;
    DropOldestIsSuffix(s.pool, s.target);
    ShrinkKeeps(s, |s.pool| - |DropOldest(s.pool, s.target)|, g, k, s.clock);
  }

  /** The fetch ends without a new entry. */
  lemma Settle(s: State, g: real, k: nat, t: real)
    requires Inv(s, g, k) && s.daemon.Fetching? && s.clock <= t
    ensures Inv(s.(daemon := Waiting(t + s.refill), clock := t), g, k)
  {
    hide Times;
  }

  lemma AppendKeeps(s: State, g: real, k: nat, url: string, t: real)
    requires Inv(s, g, k) && s.daemon.Fetching? && s.clock <= t
    requires s.pool != [] ==> !Expired(s.pool[0], s.clock)
    ensures Inv(s.(pool := s.pool + [Entry(url, t)], daemon := Waiting(t + s.refill), clock := t), g, k)
  {
    var n := |s.pool|;
    var longer := s.pool + [Entry(url, t)];
    if n > k {
      RestingCount(s.pool, g, k, s.clock);
      assert Times(n + 1 - k, g) == Times(n - k, g) + g;
    } else if n == k {
      assert Times(1, g) == Times(0, g) + g;
    }
    hide Times;
    assert Sorted(longer, t);
    assert Spaced(longer, g, k);
  }

  lemma StartKeeps(s: State, hint: int, t: real, g: real, k: nat)
    requires Inv(s, g, k) && s.clock <= t && (hint > 0 ==> Refill(hint) >= g)
    ensures Inv(Step(s, Start(hint, t)), g, k)
  {
    hide Refill, Target, Times;
  }

  lemma BeginKeeps(s: State, ready: bool, t: real, g: real, k: nat)
    requires Inv(s, g, k) && Enabled(s, BeginCycle(ready, t))
    ensures Inv(Step(s, BeginCycle(ready, t)), g, k)
  {
    hide Inv, Evict;
    var pool := if ready then Evict(s.pool, t) else s.pool;
    EvictIsSuffix(s.pool, t);
    assert s.pool[0..] == s.pool;
    ShrinkKeeps(s, |s.pool| - |pool|, g, k, t);
    RestKeeps(s.(pool := pool, clock := t), g, k);
  }

  lemma RestKeeps(s: State, g: real, k: nat)
    requires Inv(s, g, k) && s.daemon.Waiting? && !s.stop && s.daemon.wake <= s.clock
    ensures Inv(s.(daemon := Fetching(s.clock)), g, k) && Inv(s.(daemon := Waiting(s.clock + s.refill)), g, k)
  {
    hide Times;
  }

  lemma SwitchKeeps(s: State, e: Event, g: real, k: nat)
    requires Inv(s, g, k) && Enabled(s, e) && Slow(e, g)
    requires e.Configure? || e.Exit? || (e.Stop? && k == 1)
    ensures Inv(Step(s, e), g, k)
  {
    hide Refill, Target;
  }

  lemma StepKeeps(s: State, e: Event, g: real, k: nat)
    requires Inv(s, g, k) && Enabled(s, e) && Slow(e, g)
    requires k == 0 ==> !e.Stop?
    ensures Inv(Step(s, e), g, k)
  {
    match e
    case EndCycle(fetched, t1, t2) =>
      if fetched.Some? {
        PushKeeps(s, g, k, fetched.value, t1, t2);
      } else {
        Settle(s, g, k, t2);
      }
      hide Inv;
    case Borrow(t) =>
      PopKeeps(s, g, k, t);
      hide Inv;
    case Snapshot(t) =>
      EvictKeeps(s, g, k, t);
      hide Inv;
    case BeginCycle(ready, t) =>
      hide Step;
      BeginKeeps(s, ready, t, g, k);
    case Start(hint, t) =>
      hide Step;
      StartKeeps(s, hint, t, g, k);
    case _ =>
      hide Step;
      assert k == 0 || k == 1;
      SwitchKeeps(s, e, g, k);
  }

  lemma {:induction false} RunKeeps(s: State, run: seq<Event>, g: real, k: nat)
    requires Inv(s, g, k) && Possible(s, run)
    requires forall i :: 0 <= i < |run| ==> Slow(run[i], g) && (k == 0 ==> !run[i].Stop?)
    ensures Inv(After(s, run), g, k)
  {
    if |run| > 0 {
      RunKeeps(s, run[..|run| - 1], g, k);
      StepKeeps(After(s, run[..|run| - 1]), run[|run| - 1], g, k);
    }
  }

  // ---- the bounds ----------------------------------------------------------------------------------------------

  /** As the pool is set up by `start_pool_daemon` with a concurrency hint. */
  function Started(hint: int, t: real): State {
    State([], Target(hint), Refill(hint), false, Waiting(t), t)
  }

  lemma RefillFalls(c: int, d: int)
    requires c <= d
    ensures Refill(c) >= Refill(d)
  {
    ShareFalls(Concurrency(c), Concurrency(d));
  }

  lemma ShareFalls(c: nat, d: nat)
    requires 1 <= c <= d
    ensures 60.0 / c as real >= 60.0 / d as real
  {
    var x, y := 60.0 / c as real, 60.0 / d as real;
    assert x * c as real == y * d as real == 60.0;
    assert y * c as real <= y * d as real;
    assert (x - y) * c as real >= 0.0;
    SameSign(x - y, c as real);
  }

  lemma SameSign(a: real, c: real)
    requires a * c >= 0.0 && c > 0.0
    ensures a >= 0.0
  {
  }

  /** Hints never go above `c`. */
  predicate AtMost(e: Event, c: int) {
    (e.Configure? ==> e.c <= c) && (e.Start? ==> e.hint <= c)
  }

  lemma StartedInv(c: int, t: real, k: nat)
    requires k <= 1
    ensures Inv(Started(c, t), Refill(c), k)
  {
    hide Times, Refill, Target;
  }

  lemma CountBound(n: nat, g: real)
    requires g > 0.0 && Times(n, g) <= 60.0 + g
    ensures n <= (60.0 / g).Floor + 1
  {
    TimesIsProduct(n, g);
    assert n as real * g <= 60.0 + g;
    assert (n as real - 1.0) * g <= 60.0;
    if n > 0 {
      QuotientBound(n - 1, g);
    }
  }

  lemma QuotientBound(m: nat, g: real)
    requires g > 0.0 && m as real * g <= 60.0
    ensures m <= (60.0 / g).Floor
  {
    var q := 60.0 / g;
    assert q * g == 60.0;
    assert (q - m as real) * g >= 0.0;
    SameSign(q - m as real, g);
  }

  lemma SlowUnderHint(run: seq<Event>, c: int)
    requires forall i :: 0 <= i < |run| ==> AtMost(run[i], c)
    ensures forall i :: 0 <= i < |run| ==> Slow(run[i], Refill(c))
  {
    hide Refill;
    forall i | 0 <= i < |run| ensures Slow(run[i], Refill(c)) {
      assert AtMost(run[i], c);
      if run[i].Configure? {
        RefillFalls(run[i].c, c);
      } else if run[i].Start? {
        RefillFalls(run[i].hint, c);
      }
    }
  }

  /** The pool never holds more entries than can be born within one lifetime at the fastest
      refill, plus one; and one more when the daemon may be stopped and restarted. */
  lemma PoolStaysSmall(c: int, t: real, run: seq<Event>)
    requires Possible(Started(c, t), run)
    requires forall i :: 0 <= i < |run| ==> AtMost(run[i], c)
    ensures var n := |After(Started(c, t), run).pool|;
      n <= (60.0 / Refill(c)).Floor + 2
      && ((forall i :: 0 <= i < |run| ==> !run[i].Stop?) ==> n <= (60.0 / Refill(c)).Floor + 1)
  {
    var s, g := Started(c, t), Refill(c);
    SlowUnderHint(run, c);
    SizeOf(s, run, g, 1, c, t);
    if forall i :: 0 <= i < |run| ==> !run[i].Stop? {
      SizeOf(s, run, g, 0, c, t);
    }
  }

  lemma SizeOf(s: State, run: seq<Event>, g: real, k: nat, c: int, t: real)
    requires s == Started(c, t) && g == Refill(c) && Possible(s, run) && k <= 1
    requires forall i :: 0 <= i < |run| ==> Slow(run[i], g) && (k == 0 ==> !run[i].Stop?)
    ensures |After(s, run).pool| <= (60.0 / g).Floor + 1 + k
  {
    StartedInv(c, t, k);
    RunKeeps(s, run, g, k);
    InvBound(After(s, run), g, k);
  }

  lemma InvBound(s: State, g: real, k: nat)
    requires Inv(s, g, k)
    ensures |s.pool| <= (60.0 / g).Floor + 1 + k
  {
    if |s.pool| > k {
      CountBound(|s.pool| - k, g);
    } else {
      QuotientBound(0, g);
    }
  }

  /** For concurrency up to 12 the target of 30 is never reached: at most 13 entries. */
  lemma SmallTeamsHoldThirteen(c: int, t: real, run: seq<Event>)
    requires c <= 12 && Possible(Started(c, t), run)
    requires forall i :: 0 <= i < |run| ==> AtMost(run[i], c) && !run[i].Stop?
    ensures |After(Started(c, t), run).pool| <= 13 && Target(c) == 30
  {
    ShareFalls(Concurrency(c), 12);
    assert Refill(c) == 5.0;
    PoolStaysSmall(c, t, run);
    assert (60.0 / 5.0).Floor == 12;
  }

  // ---- eviction, borrowing, parameters ----------------------------------------------------------------------

  /** The entries that are at most a minute old. */
  function Alive(pool: seq<Entry>, now: real): seq<Entry> {
    if pool == [] then [] else (if now - pool[0].born <= 60.0 then [pool[0]] else []) + Alive(pool[1..], now)
  }

  lemma {:induction false} AliveIsSublist(pool: seq<Entry>, now: real)
    ensures |Alive(pool, now)| <= |pool|
    ensures |Alive(pool, now)| == |pool| <==> forall i :: 0 <= i < |pool| ==> !Expired(pool[i], now)
    ensures |Alive(pool, now)| == |pool| ==> Alive(pool, now) == pool
  {
    if pool != [] {
      AliveIsSublist(pool[1..], now);
      forall i | 0 < i < |pool| ensures pool[i] == pool[1..][i - 1] {}
    }
  }

  /** No expired entry stands behind one that is alive. */
  predicate InOrder(pool: seq<Entry>, now: real) {
    forall i, j :: 0 <= i < j < |pool| && Expired(pool[j], now) ==> Expired(pool[i], now)
  }

  lemma TailInOrder(pool: seq<Entry>, now: real)
    requires pool != [] && Expired(pool[0], now)
    ensures InOrder(pool, now) <==> InOrder(pool[1..], now)
  {
    hide Expired;
    var tail := pool[1..];
    if InOrder(pool, now) {
      forall i, j | 0 <= i < j < |tail| && Expired(tail[j], now) ensures Expired(tail[i], now) {
        assert tail[i] == pool[i + 1] && tail[j] == pool[j + 1];
      }
    }
    if InOrder(tail, now) {
      forall i, j | 0 <= i < j < |pool| && Expired(pool[j], now) ensures Expired(pool[i], now) {
        if i > 0 {
          assert pool[i] == tail[i - 1] && pool[j] == tail[j - 1];
        }
      }
    }
  }

  /** Dropping from the left removes exactly the expired entries if and only if no expired
      entry stands behind one that is alive. */
  lemma {:induction false} EvictIsFilter(pool: seq<Entry>, now: real)
    ensures Evict(pool, now) == Alive(pool, now) <==> InOrder(pool, now)
  {
    if pool != [] {
      if Expired(pool[0], now) {
        EvictIsFilter(pool[1..], now);
        TailInOrder(pool, now);
        assert Alive(pool, now) == Alive(pool[1..], now);
        hide InOrder, Expired;
      } else {
        AliveIsSublist(pool, now);
        hide Expired;
        assert Evict(pool, now) == pool;
        hide Evict, Alive;
      }
    }
  }

  /** In every reachable state births are in order, so eviction keeps exactly the entries that
      are alive, and a borrower gets the youngest of them or learns that there is none. */
  lemma BorrowGivesTheYoungest(c: int, t: real, run: seq<Event>, now: real)
    requires Possible(Started(c, t), run)
    requires forall i :: 0 <= i < |run| ==> AtMost(run[i], c)
    ensures After(Started(c, t), run).clock <= now ==>
      var pool := After(Started(c, t), run).pool;
      var (rest, got) := Pop(pool, now);
      && Sorted(pool, now)
      && Evict(pool, now) == Alive(pool, now)
      && (got.None? <==> Alive(pool, now) == [])
      && (got.Some? ==> rest + [got.value] == Alive(pool, now) && now - got.value.born <= 60.0
                        && forall i :: 0 <= i < |pool| ==> pool[i].born <= got.value.born)
  {
    hide Possible, After, Refill, Started, Sorted, Evict, Alive, Pop, AtMost, Slow;
    SlowUnderHint(run, c);
    StartedInv(c, t, 1);
    RunKeeps(Started(c, t), run, Refill(c), 1);
    SortedLater(After(Started(c, t), run), Refill(c), now);
    if After(Started(c, t), run).clock <= now {
      PopOfSorted(After(Started(c, t), run).pool, now);
    }
  }

  lemma SortedLater(s: State, g: real, now: real)
    requires Inv(s, g, 1)
    ensures s.clock <= now ==> Sorted(s.pool, now)
  {
  }

  lemma PopOfSorted(pool: seq<Entry>, now: real)
    requires Sorted(pool, now)
    ensures var (rest, got) := Pop(pool, now);
      && Evict(pool, now) == Alive(pool, now)
      && (got.None? <==> Alive(pool, now) == [])
      && (got.Some? ==> rest + [got.value] == Alive(pool, now) && now - got.value.born <= 60.0
                        && forall i :: 0 <= i < |pool| ==> pool[i].born <= got.value.born)
  {
    EvictIsFilter(pool, now);
    EvictIsSuffix(pool, now);
    var alive := Evict(pool, now);
    hide Evict, Alive;
    if alive != [] {
      assert alive[|alive| - 1] == pool[|pool| - 1];
      OnlyAlive(pool, now, |alive| - 1);
    }
  }

  lemma {:induction false} OnlyAlive(pool: seq<Entry>, now: real, i: nat)
    requires i < |Alive(pool, now)|
    ensures !Expired(Alive(pool, now)[i], now)
  {
    var head := if Expired(pool[0], now) then [] else [pool[0]];
    if i >= |head| {
      OnlyAlive(pool[1..], now, i - |head|);
    }
  }

  /** A stored address is the youngest and the pool is not over its target. */
  lemma PushStores(pool: seq<Entry>, target: nat, url: string, t1: real, t2: real)
    requires url != "" && target > 0
    ensures var r := Push(pool, target, url, t1, t2);
      0 < |r| <= target && r[|r| - 1] == Entry(url, t2)
      && (|Evict(pool, t1)| < target ==> r == Evict(pool, t1) + [Entry(url, t2)])
  {
    DropOldestIsSuffix(Evict(pool, t1) + [Entry(url, t2)], target);
  }

  /** The parameters for `c` workers: room for half as many addresses again, but never for fewer
      than thirty; and a worker's share of the minute between two fetches, but never less than one
      second nor more than five. */
  lemma ParametersAre(c: int)
    ensures Target(c) == if c <= 20 then 30 else 3 * c / 2
    ensures Refill(c) == if c <= 12 then 5.0 else if c >= 60 then 1.0 else 60.0 / c as real
  {
    var n := Concurrency(c);
    HalfAsMany(n);
    if c > 20 {
      assert 3 * n / 2 >= 31;
    } else {
      assert 3 * n / 2 <= 30;
    }
    hide Target;
    if c <= 12 {
      ShareFalls(n, 12);
    } else if c >= 60 {
      ShareFalls(60, n);
    } else {
      ShareFalls(12, n);
      ShareFalls(n, 60);
    }
  }

  lemma HalfAsMany(n: nat)
    ensures (n as real * 1.5).Floor == 3 * n / 2
  {
    var m := 3 * n / 2;
    assert 2 * m <= 3 * n < 2 * m + 2;
    assert m as real <= n as real * 1.5 < m as real + 1.0;
  }

  /** Exactly when a cycle goes on to fetch: the service is switched on and fewer entries than the
      target are at most a minute old. */
  lemma FetchesExactly(s: State, ready: bool, t: real)
    requires Sorted(s.pool, t) && s.daemon.Waiting?
    ensures Step(s, BeginCycle(ready, t)).daemon ==
      if ready && |Alive(s.pool, t)| < s.target then Fetching(t) else Waiting(t + s.refill)
  {
    EvictIsFilter(s.pool, t);
  }

  /** Starting with a number of workers sets both parameters, starting without one keeps them; a
      running daemon is left alone, otherwise one begins at once. */
  lemma StartsWith(s: State, hint: int, t: real)
    ensures var s' := Step(s, Start(hint, t));
      && s'.target == (if hint > 0 then Target(hint) else s.target)
      && s'.refill == (if hint > 0 then Refill(hint) else s.refill)
      && (s.daemon.NoDaemon? ==> s'.daemon == Waiting(t) && !s'.stop)
      && (!s.daemon.NoDaemon? ==> s'.daemon == s.daemon && s'.stop == s.stop)
      && s'.pool == s.pool
    ensures forall c :: Step(s, Configure(c)) == s.(target := Target(c), refill := Refill(c))
  {
    hide Target, Refill;
  }

  /** A pool that is stopped and started again too quickly ends with no daemon and stays empty. */
  lemma QuickRestartLosesTheDaemon(s: State, hint: int, t: real)
    requires s.daemon.Waiting? && s.clock <= t
    ensures var run := [Stop, Start(hint, t), Exit];
      Possible(s, run) && After(s, run).daemon.NoDaemon? && After(s, run).pool == []
  {
    hide Target, Refill;
    var run := [Stop, Start(hint, t), Exit];
    assert run[..2] == [Stop, Start(hint, t)] && run[..2][..1] == [Stop] && [Stop][..0] == [];
    assert After(s, []) == s && Possible(s, []);
    assert After(s, [Stop]) == Step(s, Stop) && Possible(s, [Stop]);
    assert After(s, run[..2]) == Step(Step(s, Stop), Start(hint, t)) && Possible(s, run[..2]);
  }
}
