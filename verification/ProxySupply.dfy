/** How fast the refilling daemon really is, and when a restart loses it
    (core/dynamic_proxy.py). */
module ProxySupply {
  import opened Basics
  import opened ProxyPool

  // ---- births over a run ------------------------------------------------------------------------

  /** When addresses came into the pool. */
  function Births(run: seq<Event>): seq<real> {
    if |run| == 0 then []
    else
      var e := run[|run| - 1];
      Births(run[..|run| - 1]) + if e.EndCycle? && e.fetched.Some? && e.fetched.value != "" then [e.t2] else []
  }

  /** Every fetch of the run takes at least `latency`. */
  ghost predicate Lasting(s: State, run: seq<Event>, latency: real) {
    |run| > 0 ==>
      var before, e := After(s, run[..|run| - 1]), run[|run| - 1];
      Lasting(s, run[..|run| - 1], latency)
      && (e.EndCycle? && before.daemon.Fetching? ==> e.t1 >= before.daemon.since + latency)
  }

  /** The daemon is never stopped, and hints stay at `c` or below. */
  ghost predicate Unstopped(run: seq<Event>, c: int) {
    forall i :: 0 <= i < |run| ==> AtMost(run[i], c) && !run[i].Stop?
  }

  /** When the daemon can look at the pool again. */
  function Ready(s: State): real
    requires !s.daemon.NoDaemon?
  {
    match s.daemon
    case Waiting(wake) => wake
    case Fetching(since) => since
  }

  /** After `n` births the daemon has spent `n` cycles. */
  ghost predicate Paced(s: State, g: real, cycle: real, n: nat, t: real) {
    !s.stop && !s.daemon.NoDaemon? && s.refill >= g && Ready(s) >= t + Times(n, cycle)
    && (s.daemon.Fetching? ==> s.daemon.since <= s.clock)
  }

  lemma PacedStep(s: State, e: Event, g: real, latency: real, n: nat, t: real)
    requires latency >= 0.0 && g >= 0.0 && Paced(s, g, g + latency, n, t) && Enabled(s, e) && Slow(e, g) && !e.Stop?
    requires e.EndCycle? && s.daemon.Fetching? ==> e.t1 >= s.daemon.since + latency
    ensures e.EndCycle? ==> e.t2 >= t + Times(n, g + latency) + latency
    ensures Paced(Step(s, e), g, g + latency, n, t)
    ensures e.EndCycle? ==> Paced(Step(s, e), g, g + latency, n + 1, t)
  {
    hide Evict, Push, Pop, Refill, Target;
    assert Times(n + 1, g + latency) == Times(n, g + latency) + (g + latency);
    hide Times;
  }

  /** No run is faster: the birth with index `i` comes at least `i` full cycles of refill
      interval plus fetch time, and its own fetch, after the start. */
  lemma {:induction false} BirthsTakeFullCycles(c: int, t: real, run: seq<Event>, latency: real)
    requires latency >= 0.0 && Possible(Started(c, t), run) && Lasting(Started(c, t), run, latency) && Unstopped(run, c)
    ensures Paced(After(Started(c, t), run), Refill(c), Refill(c) + latency, |Births(run)|, t)
    ensures forall i :: 0 <= i < |Births(run)| ==> Births(run)[i] >= t + Times(i, Refill(c) + latency) + latency
  {
    hide Step, Enabled, Refill, AtMost, Slow;
    var g := Refill(c);
    if |run| == 0 {
      assert Times(0, g + latency) == 0.0;
    } else {
      var init, e := run[..|run| - 1], run[|run| - 1];
      assert AtMost(e, c);
      assert Unstopped(init, c) by {
        forall i | 0 <= i < |init| ensures AtMost(init[i], c) && !init[i].Stop? {
          assert init[i] == run[i];
        }
      }
      BirthsTakeFullCycles(c, t, init, latency);
      HintIsSlow(e, c);
      hide Times, Started, Unstopped;
      PacedStep(After(Started(c, t), init), e, g, latency, |Births(init)|, t);
    }
  }

  lemma HintIsSlow(e: Event, c: int)
    requires AtMost(e, c)
    ensures Slow(e, Refill(c))
  {
    hide Refill;
    if e.Configure? {
      RefillFalls(e.c, c);
    } else if e.Start? {
      RefillFalls(e.hint, c);
    }
  }

  // ---- the fastest run --------------------------------------------------------------------------------

  /** One cycle without any delay: look, fetch, store, and somebody borrows at once. */
  function EagerCycle(at: real, latency: real): seq<Event> {
    [BeginCycle(true, at), EndCycle(Some("p"), at + latency, at + latency), Borrow(at + latency)]
  }

  function Eager(cycle: real, latency: real, n: nat): seq<Event> {
    if n == 0 then [] else Eager(cycle, latency, n - 1) + EagerCycle(Times(n - 1, cycle), latency)
  }

  lemma AfterOne(s: State, run: seq<Event>, e: Event)
    ensures After(s, run + [e]) == Step(After(s, run), e)
    ensures Possible(s, run + [e]) <==> Possible(s, run) && Enabled(After(s, run), e)
  {
    hide Step, Enabled;
    assert (run + [e])[..|run|] == run;
  }

  lemma AfterThree(s: State, run: seq<Event>, a: Event, b: Event, c: Event)
    ensures After(s, run + [a, b, c]) == Step(Step(Step(After(s, run), a), b), c)
    ensures Possible(s, run + [a, b, c]) <==>
      Possible(s, run) && Enabled(After(s, run), a) && Enabled(Step(After(s, run), a), b)
      && Enabled(Step(Step(After(s, run), a), b), c)
  {
    hide Step, Enabled, After, Possible;
    assert run + [a, b] == run + [a] + [b] && run + [a, b, c] == run + [a, b] + [c];
    AfterOne(s, run, a);
    AfterOne(s, run + [a], b);
    AfterOne(s, run + [a, b], c);
  }

  lemma LastingThree(s: State, run: seq<Event>, at: real, latency: real)
    requires Lasting(s, run, latency) && Step(After(s, run), BeginCycle(true, at)).daemon == Fetching(at)
    ensures Lasting(s, run + EagerCycle(at, latency), latency)
  {
    hide Step;
    var a, b, c := BeginCycle(true, at), EndCycle(Some("p"), at + latency, at + latency), Borrow(at + latency);
    assert (run + [a])[..|run|] == run;
    assert After(s, run + [a]).daemon == Fetching(at);
    assert Lasting(s, run + [a], latency);
    assert (run + [a, b])[..|run| + 1] == run + [a];
    assert Lasting(s, run + [a, b], latency);
    assert (run + [a, b, c])[..|run| + 2] == run + [a, b];
  }

  lemma BirthsThree(run: seq<Event>, at: real, latency: real)
    ensures Births(run + EagerCycle(at, latency)) == Births(run) + [at + latency]
  {
    var a, b, c := BeginCycle(true, at), EndCycle(Some("p"), at + latency, at + latency), Borrow(at + latency);
    assert (run + [a])[..|run|] == run;
    assert Births(run + [a]) == Births(run);
    assert (run + [a, b])[..|run| + 1] == run + [a];
    assert Births(run + [a, b]) == Births(run) + [at + latency];
    assert (run + [a, b, c])[..|run| + 2] == run + [a, b];
  }

  /** The state between eager cycles. */
  function Between(c: int, wake: real, clock: real): State {
    State([], Target(c), Refill(c), false, Waiting(wake), clock)
  }

  function Fed(c: int, wake: real, clock: real): State {
    State([Entry("p", clock)], Target(c), Refill(c), false, Waiting(wake), clock)
  }

  lemma LookStep(c: int, wake: real, clock: real)
    requires clock <= wake
    ensures var s := Between(c, wake, clock);
      Enabled(s, BeginCycle(true, wake))
      && Step(s, BeginCycle(true, wake)) == s.(daemon := Fetching(wake), clock := wake)
  {
    hide Refill;
    assert Evict([], wake) == [];
    hide Evict;
  }

  lemma FetchStep(c: int, wake: real, at: real)
    requires wake <= at
    ensures var s, e := Between(c, wake, wake).(daemon := Fetching(wake)), EndCycle(Some("p"), at, at);
      Enabled(s, e) && Step(s, e) == Fed(c, at + Refill(c), at)
  {
    hide Refill, Push, Target, Evict;
    ThereIsRoom(c);
    PushFirst(Target(c), at);
  }

  lemma ThereIsRoom(c: int)
    ensures Target(c) >= 30
  {
  }

  lemma PushFirst(target: nat, at: real)
    requires target >= 1
    ensures Push([], target, "p", at, at) == [Entry("p", at)]
  {
    hide DropOldest;
    assert Evict([], at) == [] && [] + [Entry("p", at)] == [Entry("p", at)];
    DropOldestIsSuffix([Entry("p", at)], target);
    assert [Entry("p", at)][0..] == [Entry("p", at)];
  }

  lemma BorrowStep(c: int, wake: real, at: real)
    ensures Enabled(Fed(c, wake, at), Borrow(at)) && Step(Fed(c, wake, at), Borrow(at)) == Between(c, wake, at)
  {
    hide Refill, Target;
    assert !Expired(Entry("p", at), at);
    assert Pop([Entry("p", at)], at).0 == [];
    hide Pop;
  }

  lemma EagerSteps(c: int, wake: real, clock: real, latency: real)
    requires latency >= 0.0 && clock <= wake
    ensures var s := Between(c, wake, clock);
      var e := EagerCycle(wake, latency);
      && Enabled(s, e[0]) && Step(s, e[0]).daemon == Fetching(wake) && Enabled(Step(s, e[0]), e[1])
      && Enabled(Step(Step(s, e[0]), e[1]), e[2])
      && Step(Step(Step(s, e[0]), e[1]), e[2]) == Between(c, wake + latency + Refill(c), wake + latency)
  {
    hide Refill, Target, Step, Enabled;
    LookStep(c, wake, clock);
    FetchStep(c, wake, wake + latency);
    BorrowStep(c, wake + latency + Refill(c), wake + latency);
  }

  /** The clock after `n` eager cycles. */
  function EagerClock(cycle: real, latency: real, n: nat): real {
    if n == 0 then 0.0 else Times(n - 1, cycle) + latency
  }

  lemma {:induction false} EagerIsPossible(c: int, latency: real, n: nat)
    requires latency >= 0.0
    ensures var s, run, cycle := Started(c, 0.0), Eager(Refill(c) + latency, latency, n), Refill(c) + latency;
      && Possible(s, run) && Lasting(s, run, latency)
      && After(s, run) == Between(c, Times(n, cycle), EagerClock(cycle, latency, n))
      && |Births(run)| == n && forall i :: 0 <= i < n ==> Births(run)[i] == Times(i, cycle) + latency
  {
    hide Step, Enabled, Refill, Target, Lasting, Possible, After, Births, Started, EagerCycle, Times, EagerClock;
    var s, cycle := Started(c, 0.0), Refill(c) + latency;
    if n == 0 {
      EagerStarts(c, latency);
    } else {
      EagerIsPossible(c, latency, n - 1);
      ClockMoves(cycle, latency, Refill(c), n);
      EagerOnce(c, s, Eager(cycle, latency, n - 1), latency, Times(n - 1, cycle), EagerClock(cycle, latency, n - 1));
    }
  }

  lemma EagerStarts(c: int, latency: real)
    ensures var s, cycle := Started(c, 0.0), Refill(c) + latency;
      && Possible(s, []) && Lasting(s, [], latency) && Births([]) == []
      && After(s, []) == Between(c, Times(0, cycle), EagerClock(cycle, latency, 0))
  {
    hide Refill, Target;
    assert Times(0, Refill(c) + latency) == 0.0;
  }

  lemma ClockMoves(cycle: real, latency: real, g: real, n: nat)
    requires n > 0 && latency >= 0.0 && g >= 0.0 && cycle == g + latency
    ensures EagerClock(cycle, latency, n - 1) <= Times(n - 1, cycle)
    ensures EagerClock(cycle, latency, n) == Times(n - 1, cycle) + latency
    ensures Times(n, cycle) == Times(n - 1, cycle) + latency + g
  {
  }

  lemma EagerOnce(c: int, s: State, before: seq<Event>, latency: real, at: real, clock: real)
    requires latency >= 0.0 && clock <= at
    requires Possible(s, before) && Lasting(s, before, latency) && After(s, before) == Between(c, at, clock)
    ensures var run := before + EagerCycle(at, latency);
      && Possible(s, run) && Lasting(s, run, latency)
      && After(s, run) == Between(c, at + latency + Refill(c), at + latency)
      && Births(run) == Births(before) + [at + latency]
  {
    hide Step, Enabled, Refill, Target, Lasting, Possible, After, Births;
    var e := EagerCycle(at, latency);
    assert e == [e[0], e[1], e[2]];
    EagerSteps(c, at, clock, latency);
    AfterThree(s, before, e[0], e[1], e[2]);
    LastingThree(s, before, at, latency);
    BirthsThree(before, at, latency);
  }

  lemma {:induction false} EagerIsUnstopped(c: int, cycle: real, latency: real, n: nat)
    ensures Unstopped(Eager(cycle, latency, n), c)
  {
    if n > 0 {
      EagerIsUnstopped(c, cycle, latency, n - 1);
    }
  }

  // ---- supply and demand ---------------------------------------------------------------------------------

  /** The docstring's promise for workers that each use one address per minute: with fetches that
      take `latency`, the daemon can bring the n-th address within n-th of a minute per worker. */
  ghost predicate KeepsUp(c: int, latency: real)
    requires c >= 1
  {
    forall n: nat :: n >= 1 ==> CanSupply(c, latency, n)
  }

  ghost predicate CanSupply(c: int, latency: real, n: nat)
    requires c >= 1 && n >= 1
  {
    exists run :: Supplies(c, latency, n, run)
  }

  ghost predicate Supplies(c: int, latency: real, n: nat, run: seq<Event>)
    requires c >= 1 && n >= 1
  {
    && Possible(Started(c, 0.0), run) && Lasting(Started(c, 0.0), run, latency) && Unstopped(run, c)
    && |Births(run)| >= n && Births(run)[n - 1] <= n as real * (60.0 / c as real)
  }

  /** Exactly when supply meets demand: refill interval and fetch time together fit into a
      worker's share of the minute. */
  lemma SupplyMeetsDemandExactly(c: int, latency: real)
    requires c >= 1 && latency >= 0.0
    ensures KeepsUp(c, latency) <==> Refill(c) + latency <= 60.0 / c as real
  {
    hide Supplies, Times, Eager, CanSupply;
    var share, cycle := 60.0 / c as real, Refill(c) + latency;
    if cycle <= share {
      forall n: nat | n >= 1 ensures CanSupply(c, latency, n) {
        EagerSupplies(c, latency, n);
      }
    } else {
      var n := LateAddress(share, cycle);
      NeverSupplies(c, latency, n);
      assert !CanSupply(c, latency, n);
    }
  }

  lemma EagerSupplies(c: int, latency: real, n: nat)
    requires c >= 1 && latency >= 0.0 && n >= 1 && Refill(c) + latency <= 60.0 / c as real
    ensures CanSupply(c, latency, n)
  {
    hide Possible, Lasting, Eager, Unstopped, Refill, Times, Births, Started;
    var share, cycle := 60.0 / c as real, Refill(c) + latency;
    EagerIsPossible(c, latency, n);
    EagerIsUnstopped(c, cycle, latency, n);
    TimesIsProduct(n - 1, cycle);
    ProductGrows(n - 1, cycle, share);
    assert n as real * share == (n - 1) as real * share + share;
    var run := Eager(cycle, latency, n);
    assert Births(run)[n - 1] == Times(n - 1, cycle) + latency;
    assert Births(run)[n - 1] <= n as real * share;
    assert Supplies(c, latency, n, run);
  }

  lemma ProductGrows(n: nat, a: real, b: real)
    requires a <= b
    ensures n as real * a <= n as real * b
  {
  }

  /** A cycle longer than the share falls behind without bound: some address is late. */
  lemma LateAddress(share: real, cycle: real) returns (n: nat)
    requires 0.0 < share < cycle
    ensures n >= 1 && Times(n - 1, cycle) > n as real * share
  {
    var gap := cycle - share;
    var q := share / gap;
    var k := q.Floor + 1;
    assert q * gap == share && k as real > q;
    Positive(k as real - q, gap);
    assert k as real * gap == (k as real - q) * gap + q * gap;
    n := k + 1;
    TimesIsProduct(k, cycle);
    assert k as real * cycle == k as real * share + k as real * gap;
    assert n as real * share == k as real * share + share;
  }

  lemma Positive(a: real, b: real)
    requires a > 0.0 && b > 0.0
    ensures a * b > 0.0
  {
  }

  /** In every run whose fetches last, the n-th address comes no earlier than this. */
  lemma NeverSupplies(c: int, latency: real, n: nat)
    requires c >= 1 && latency >= 0.0 && n >= 1
    requires Times(n - 1, Refill(c) + latency) > n as real * (60.0 / c as real)
    ensures !CanSupply(c, latency, n)
  {
    hide Times, Refill, Started, Possible, Lasting, Births, Unstopped;
    forall run ensures !Supplies(c, latency, n, run) {
      if Possible(Started(c, 0.0), run) && Lasting(Started(c, 0.0), run, latency) && Unstopped(run, c)
        && |Births(run)| >= n {
        BirthsTakeFullCycles(c, 0.0, run, latency);
        assert Births(run)[n - 1] >= 0.0 + Times(n - 1, Refill(c) + latency) + latency;
      }
    }
  }

  /** From twelve to sixty workers the interval is the whole share, so any fetch that takes time
      at all makes the daemon fall behind. */
  lemma NoTimeToFetch(c: int, latency: real)
    requires 12 <= c <= 60 && latency >= 0.0
    ensures KeepsUp(c, latency) <==> latency == 0.0
  {
    SupplyMeetsDemandExactly(c, latency);
    ShareFalls(c, 60);
    ShareFalls(12, c);
    assert Refill(c) == 60.0 / c as real;
    hide KeepsUp;
  }

  /** The concrete case: twenty workers, fetches of one second.  The interval is the stated three
      seconds, but whatever the schedule, the fourth address comes after thirteen seconds, one
      second too late. */
  lemma TwentyWorkersWait(run: seq<Event>)
    requires Possible(Started(20, 0.0), run) && Lasting(Started(20, 0.0), run, 1.0) && Unstopped(run, 20)
    ensures Refill(20) == 3.0 && !KeepsUp(20, 1.0)
    ensures |Births(run)| >= 4 ==> Births(run)[3] >= 13.0 > 4.0 * (60.0 / 20.0)
  {
    NoTimeToFetch(20, 1.0);
    BirthsTakeFullCycles(20, 0.0, run, 1.0);
    TimesIsProduct(3, 4.0);
    hide Possible, Lasting, KeepsUp;
  }

  // ---- losing the daemon -----------------------------------------------------------------------------------

  /** Neither stopped nor started again. */
  ghost predicate Untouched(run: seq<Event>) {
    forall i :: 0 <= i < |run| ==> !run[i].Stop? && !run[i].Start?
  }

  lemma {:induction false} WorkingDaemonStays(s: State, run: seq<Event>)
    requires !s.stop && !s.daemon.NoDaemon? && Possible(s, run) && Untouched(run)
    ensures !After(s, run).stop && !After(s, run).daemon.NoDaemon?
  {
    hide Evict, Push, Pop, Refill, Target;
    if |run| > 0 {
      var init := run[..|run| - 1];
      assert forall i :: 0 <= i < |init| ==> init[i] == run[i];
      WorkingDaemonStays(s, init);
      assert !run[|run| - 1].Stop? && !run[|run| - 1].Start?;
    }
  }

  lemma PoolShrinks(s: State, e: Event)
    requires s.daemon.NoDaemon? && Enabled(s, e) && !e.Start?
    ensures Step(s, e).daemon.NoDaemon? && |Step(s, e).pool| <= |s.pool|
  {
    hide Refill, Target;
  }

  /** A lost daemon stays lost, and the pool only shrinks, until the next start. */
  lemma {:induction false} LostStaysLost(s: State, run: seq<Event>)
    requires s.daemon.NoDaemon? && Possible(s, run) && forall i :: 0 <= i < |run| ==> !run[i].Start?
    ensures After(s, run).daemon.NoDaemon? && |After(s, run).pool| <= |s.pool|
  {
    hide Step, Enabled;
    if |run| > 0 {
      LostStaysLost(s, run[..|run| - 1]);
      PoolShrinks(After(s, run[..|run| - 1]), run[|run| - 1]);
    }
  }

  /** The run in which a daemon that has been told to stop leaves. */
  function Leaving(s: State): seq<Event> {
    if s.daemon.Fetching? then [EndCycle(None, s.clock, s.clock), Exit] else [Exit]
  }

  lemma LeavingLoses(s: State)
    requires s.stop && !s.daemon.NoDaemon?
    ensures Possible(s, Leaving(s)) && Untouched(Leaving(s)) && After(s, Leaving(s)).daemon.NoDaemon?
  {
    hide Refill, Target;
    var run := Leaving(s);
    assert After(s, []) == s && Possible(s, []);
    if s.daemon.Fetching? {
      assert run[..1] == [EndCycle(None, s.clock, s.clock)] && run[..1][..0] == [];
      assert Possible(s, run[..1]) && After(s, run[..1]) == Step(s, run[0]);
    } else {
      assert run[..0] == [];
    }
  }

  /** After a start, and until somebody stops or starts the pool again, the daemon can get lost
      exactly when the earlier one was still alive and had already been told to stop. */
  lemma RestartNeedsTheOldDaemonGone(s: State, hint: int, t: real)
    ensures var u := Step(s, Start(hint, t));
      (exists run :: Possible(u, run) && Untouched(run) && After(u, run).daemon.NoDaemon?)
      <==> s.stop && !s.daemon.NoDaemon?
  {
    hide Refill, Target, Possible, After, Untouched;
    var u := Step(s, Start(hint, t));
    if s.stop && !s.daemon.NoDaemon? {
      LeavingLoses(u);
    } else {
      forall run | Possible(u, run) && Untouched(run) ensures !After(u, run).daemon.NoDaemon? {
        WorkingDaemonStays(u, run);
      }
    }
  }
}
