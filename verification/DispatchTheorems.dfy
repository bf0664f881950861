/** The promises of the registration runner, for every interleaving from a fresh start. */
module DispatchTheorems {
  import opened Basics
  import opened DispatchSpec
  import opened DispatchSafety

  ghost predicate Reaches(c: Config, es: seq<Event>, s: State) {
    Accepted(c) && Legal(c, Initial(), es) && s == After(c, Initial(), es)
  }

  lemma ReachedInv(c: Config, es: seq<Event>, s: State)
    requires Reaches(c, es, s)
    ensures Inv(c, s)
  {
    InitialInv(c);
    RunKeeps(c, Initial(), es);
  }

  /** Never more successes-to-be than asked for, never more listed attempts than workers. */
  lemma NeverOvershoots(c: Config, es: seq<Event>, s: State)
    requires Reaches(c, es, s)
    ensures Progress(c, s) + |Pending(s.attempts)| <= c.count
    ensures |s.active| <= c.maxWorkers
    ensures Progress(c, s) == |Filed(s.attempts)|
  {
    ReachedInv(c, es, s);
  }

  /** The size test a worker makes under the file lock never turns its file away: a new,
      non-empty path is always collected. */
  lemma NoFileTurnedAway(c: Config, es: seq<Event>, s: State, i: nat, path: string)
    requires Reaches(c, es, s) && Enabled(c, s, Collect(i, path))
    ensures |s.files| < c.count
    ensures Apply(c, s, Collect(i, path)).attempts[i].filed <==> path != "" && path !in s.fileSet
  {
    ReachedInv(c, es, s);
    assert i in Pending(s.attempts);
    assert |Pending(s.attempts)| >= 1;
  }

  /** The ledger is exact, stays within the cap, and giving a slot back never meets zero. */
  lemma LedgerIsExact(c: Config, es: seq<Event>, s: State, d: string)
    requires Reaches(c, es, s) && d != ""
    ensures Tally(s.ledger.inflight, d) == |Holders(s.attempts, d)|
    ensures Tally(s.ledger.collected, d) == |Banked(s.attempts, d)|
    ensures c.cap > 0 ==> Tally(s.ledger.inflight, d) + Tally(s.ledger.collected, d) <= c.cap
    ensures forall i: nat :: Enabled(c, s, Settle(i)) && s.attempts[i].domain == d ==> Tally(s.ledger.inflight, d) > 0
  {
    ReachedInv(c, es, s);
    assert LedgerMatchesAt(c, s.ledger, s.attempts, d);
    forall i: nat | Enabled(c, s, Settle(i)) && s.attempts[i].domain == d
      ensures Tally(s.ledger.inflight, d) > 0
    {
      assert WellStaged(c, s.attempts[i]);
      SettleOwnDomain(c, s.ledger, s.attempts, i);
    }
  }

  // ---- the quota can not run out ---------------------------------------------------------

  /** Attempts that hold or have banked a slot of one of `ds`. */
  function SlotUsers(xs: seq<Attempt>, ds: seq<string>): set<nat> {
    set i: nat | i < |xs| && xs[i].domain in ds && (IsHolding(xs[i], xs[i].domain) || IsBanked(xs[i], xs[i].domain))
  }

  lemma OneMoreDomain(xs: seq<Attempt>, ds: seq<string>, d: string)
    requires d !in ds
    ensures |SlotUsers(xs, ds + [d])| == |SlotUsers(xs, ds)| + |Holders(xs, d)| + |Banked(xs, d)|
  {
    var before, here := SlotUsers(xs, ds), Holders(xs, d) + Banked(xs, d);
    assert SlotUsers(xs, ds + [d]) == before + here;
    assert before * here == {};
    assert Holders(xs, d) * Banked(xs, d) == {};
  }

  lemma {:induction false} FullDomainsUseEverySlot(c: Config, l: Ledger, xs: seq<Attempt>, k: nat)
    requires k <= |c.domains| && Distinct(c.domains) && "" !in c.domains
    requires forall d :: d != "" ==> LedgerMatchesAt(c, l, xs, d)
    requires forall j :: 0 <= j < k ==> !Open(l, c.domains[j], c.cap)
    ensures |SlotUsers(xs, c.domains[..k])| >= k * c.cap
  {
    if k > 0 {
      var d := c.domains[k - 1];
      FullDomainsUseEverySlot(c, l, xs, k - 1);
      assert LedgerMatchesAt(c, l, xs, d);
      assert !Open(l, d, c.cap);
      assert c.domains[..k] == c.domains[..k - 1] + [d];
      OneMoreDomain(xs, c.domains[..k - 1], d);
      assert k * c.cap == (k - 1) * c.cap + c.cap;
    }
  }

  lemma NothingOpen(l: Ledger, domains: seq<string>, cap: nat, from: nat)
    requires from <= |domains| && FirstOpen(l, domains, cap, from).None?
    ensures forall j :: from <= j < |domains| ==> !Open(l, domains[j], cap)
    decreases |domains| - from
  {
  }

  /** With the capacity check of the request (`count <= domains * cap`), an attempt that
      asks for a slot gets one: the quota error cannot be raised. */
  lemma QuotaNeverExhausted(c: Config, es: seq<Event>, s: State, i: nat)
    requires Reaches(c, es, s) && AtStage(s, i, Unreserved)
    requires !c.longRun && c.count <= |c.domains| * c.cap
    ensures ChooseDomain(c, s.ledger).Some?
    ensures ChooseDomain(c, s.ledger).value in c.domains
  {
    ReachedInv(c, es, s);
    ChosenDomain(c, s.ledger, 0);
    hide Holders, Banked, LedgerMatchesAt;
    SlotIsSpare(c, s, i);
    assert c.domains[..|c.domains|] == c.domains;
    if ChooseDomain(c, s.ledger).None? {
      NothingOpen(s.ledger, c.domains, c.cap, 0);
      FullDomainsUseEverySlot(c, s.ledger, s.attempts, |c.domains|);
    }
  }

  /** An attempt without a slot leaves fewer slot users than the target. */
  lemma SlotIsSpare(c: Config, s: State, i: nat)
    requires Inv(c, s) && AtStage(s, i, Unreserved)
    ensures |SlotUsers(s.attempts, c.domains)| < c.count
  {
    hide LedgerMatches;
    var users, filed, pending := SlotUsers(s.attempts, c.domains), Filed(s.attempts), Pending(s.attempts);
    assert WellStaged(c, s.attempts[i]);
    assert filed * pending == {};
    assert |filed + pending| <= c.count;
    assert i in pending && i !in users;
    assert users <= (filed + pending) - {i};
    SubsetSize(users, (filed + pending) - {i});
  }

  // ---- leaving the loop --------------------------------------------------------------------

  /** If the loop is left and nobody asked to stop, exactly the target was reached, and no
      attempt is still running. */
  lemma LoopEndsComplete(c: Config, es: seq<Event>, s: State)
    requires Reaches(c, es, s) && s.control.LoopLeft? && !s.stopRequested && !s.stopped
    ensures Progress(c, s) == c.count
    ensures forall i :: 0 <= i < |s.attempts| ==> s.attempts[i].stage == Ended
  {
    ReachedInv(c, es, s);
    BrokeMeansStopped(c, Initial(), es);
  }

  lemma {:induction false} BrokeMeansStopped(c: Config, s: State, es: seq<Event>)
    requires Legal(c, s, es) && (s.control == LoopLeft(true) ==> s.stopped)
    ensures var s' := After(c, s, es); s'.control == LoopLeft(true) ==> s'.stopped
    decreases |es|
  {
    if |es| > 0 {
      BrokeMeansStopped(c, Apply(c, s, es[0]), es[1..]);
    }
  }

  /** Stop flags are sticky and collected files are never lost, over any continuation. */
  lemma {:induction false} RunIsMonotone(c: Config, s: State, es: seq<Event>)
    requires Legal(c, s, es)
    ensures var s' := After(c, s, es);
            && s.files <= s'.files
            && s.successes <= s'.successes
            && (s.stopRequested ==> s'.stopRequested)
            && (s.stopped ==> s'.stopped)
    decreases |es|
  {
    if |es| > 0 {
      RunIsMonotone(c, Apply(c, s, es[0]), es[1..]);
    }
  }

  /** Once everything has been collected nothing more is submitted: from a complete state
      every submission round goes straight back to waiting. */
  lemma CompleteStopsSubmitting(c: Config, es: seq<Event>, s: State)
    requires Reaches(c, es, s) && Progress(c, s) == c.count
    ensures Pending(s.attempts) == {}
    ensures s.control.AtActiveRead? ==> Apply(c, s, CompareActive).attempts == s.attempts
  {
    ReachedInv(c, es, s);
    if s.control.AtActiveRead? {
      SubsetSize(Filed(s.attempts) * s.active, s.active);
    }
  }
}
