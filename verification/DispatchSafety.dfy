/** What every run of the dispatcher keeps. */
module DispatchSafety {
  import opened Basics
  import opened DispatchSpec

  // ---- who is doing what -----------------------------------------------------------

  predicate IsHolding(a: Attempt, domain: string) {
    a.domain == domain && (a.stage == Reserved || a.stage == FileTried)
  }

  predicate IsBanked(a: Attempt, domain: string) {
    a.domain == domain && a.filed && (a.stage == Settled || a.stage == Ended)
  }

  predicate IsPending(a: Attempt) { a.stage != Ended && !a.filed }

  function Holders(xs: seq<Attempt>, domain: string): set<nat> {
    set i: nat | i < |xs| && IsHolding(xs[i], domain)
  }

  function Banked(xs: seq<Attempt>, domain: string): set<nat> {
    set i: nat | i < |xs| && IsBanked(xs[i], domain)
  }

  function Filed(xs: seq<Attempt>): set<nat> {
    set i: nat | i < |xs| && xs[i].filed
  }

  /** Attempts still running without having advanced the counter. */
  function Pending(xs: seq<Attempt>): set<nat> {
    set i: nat | i < |xs| && IsPending(xs[i])
  }

  function Toggle(s: set<nat>, i: nat, member: bool): set<nat> {
    if member then s + {i} else s - {i}
  }

  /** Replacing one attempt moves at most that attempt in or out of each group. */
  lemma GroupsAfterChange(xs: seq<Attempt>, i: nat, a: Attempt, domain: string)
    requires i < |xs|
    ensures Holders(xs[i := a], domain) == Toggle(Holders(xs, domain), i, IsHolding(a, domain))
    ensures Banked(xs[i := a], domain) == Toggle(Banked(xs, domain), i, IsBanked(a, domain))
    ensures Filed(xs[i := a]) == Toggle(Filed(xs), i, a.filed)
    ensures Pending(xs[i := a]) == Toggle(Pending(xs), i, IsPending(a))
  {
  }

  lemma GroupsAfterSubmit(xs: seq<Attempt>, domain: string)
    ensures var ys := xs + [Attempt(Queued, "", false)];
            Holders(ys, domain) == Holders(xs, domain) && Banked(ys, domain) == Banked(xs, domain)
            && Filed(ys) == Filed(xs) && Pending(ys) == Pending(xs) + {|xs|}
  {
  }

  lemma ToggleSize(s: set<nat>, i: nat)
    ensures |s + {i}| == |s| + if i in s then 0 else 1
    ensures |s - {i}| == |s| - if i in s then 1 else 0
  {
    if i in s {
      assert s + {i} == s;
      assert s == (s - {i}) + {i};
    } else {
      assert s - {i} == s;
    }
  }

  // ---- the invariant ----------------------------------------------------------------

  /** A stage's history: files only after trying, domains only after reserving. */
  predicate WellStaged(c: Config, a: Attempt) {
    && (a.filed ==> a.stage == FileTried || a.stage == Settled || a.stage == Ended)
    && (a.domain != "" ==> a.domain in c.domains && a.stage != Queued && a.stage != Unreserved)
  }

  ghost predicate Bookkeeping(c: Config, s: State) {
    && (forall i :: 0 <= i < |s.attempts| ==> WellStaged(c, s.attempts[i]))
    && (forall i :: i in s.active ==> i < |s.attempts|)
    && (!(s.control.LoopLeft? && s.control.broke) ==>
          forall i :: 0 <= i < |s.attempts| && s.attempts[i].stage != Ended ==> i in s.active)
    && |s.active| <= c.maxWorkers
    && (s.control.LoopLeft? && !s.control.broke ==> s.active == {})
  }

  ghost predicate FilesRecorded(c: Config, s: State) {
    && Progress(c, s) == |Filed(s.attempts)|
    && Distinct(s.files)
    && (forall p :: p in s.fileSet <==> p in s.files)
    && (!c.longRun ==> s.successes == 0)
  }

  /** Progress plus attempts that may still add to it never exceeds the target; between
      reading the counter and using it, the stale reading is off by at most the files
      that listed attempts have added since. */
  ghost predicate WithinTarget(c: Config, s: State) {
    && Progress(c, s) + |Pending(s.attempts)| <= c.count
    && (s.control.AtActiveRead? ==>
          s.control.remaining >= 1
          && Progress(c, s) <= c.count - s.control.remaining + |Filed(s.attempts) * s.active|)
    && (s.control == AtWait || (s.control.LoopLeft? && !s.control.broke) ==>
          s.active != {} || Progress(c, s) == c.count || s.stopped || s.stopRequested)
  }

  ghost predicate LedgerMatchesAt(c: Config, l: Ledger, xs: seq<Attempt>, d: string) {
    && Tally(l.inflight, d) == |Holders(xs, d)|
    && Tally(l.collected, d) == |Banked(xs, d)|
    && (d in l.inflight ==> l.inflight[d] > 0)
    && (c.cap > 0 ==> Tally(l.inflight, d) + Tally(l.collected, d) <= c.cap)
  }

  ghost predicate LedgerMatches(c: Config, s: State) {
    forall d :: d != "" ==> LedgerMatchesAt(c, s.ledger, s.attempts, d)
  }

  ghost predicate Inv(c: Config, s: State) {
    Bookkeeping(c, s) && FilesRecorded(c, s) && WithinTarget(c, s) && LedgerMatches(c, s)
  }

  lemma InitialInv(c: Config)
    requires Accepted(c)
    ensures Inv(c, Initial())
  {
    assert Filed([]) == {} && Pending([]) == {};
    forall d ensures Holders([], d) == {} && Banked([], d) == {} {
    }
  }

  // ---- one step ------------------------------------------------------------------------

  lemma ChosenDomain(c: Config, l: Ledger, from: nat)
    requires from <= |c.domains|
    ensures var r := FirstOpen(l, c.domains, c.cap, from);
            r.Some? ==> r.value in c.domains && Open(l, r.value, c.cap)
    decreases |c.domains| - from
  {
  }

  /** `s'` is `s` after a worker moved attempt `i` to `a`; the dispatcher did nothing. */
  ghost predicate Moved(c: Config, s: State, s': State, i: nat, a: Attempt) {
    && i < |s.attempts|
    && s.attempts[i].stage != Ended
    && s'.attempts == s.attempts[i := a]
    && s'.active == s.active
    && s'.control == s.control
    && s'.stopped == s.stopped
    && s'.stopRequested == s.stopRequested
    && WellStaged(c, a)
  }

  lemma MovedBookkeeping(c: Config, s: State, s': State, i: nat, a: Attempt)
    requires Bookkeeping(c, s) && Moved(c, s, s', i, a)
    ensures Bookkeeping(c, s')
  {
  }

  /** A move that neither files nor unfiles leaves the target bound alone. */
  lemma MovedQuietly(c: Config, s: State, s': State, i: nat, a: Attempt)
    requires FilesRecorded(c, s) && WithinTarget(c, s) && Moved(c, s, s', i, a)
    requires a.filed == s.attempts[i].filed
    requires s'.files == s.files && s'.fileSet == s.fileSet && s'.successes == s.successes
    ensures FilesRecorded(c, s') && WithinTarget(c, s')
  {
    GroupsAfterChange(s.attempts, i, a, "");
    ToggleSize(Pending(s.attempts), i);
    assert Filed(s'.attempts) == Filed(s.attempts);
  }

  lemma ReserveLedger(c: Config, s: State, i: nat, domain: string, d: string)
    requires LedgerMatchesAt(c, s.ledger, s.attempts, d) && d != ""
    requires AtStage(s, i, Unreserved) && WellStaged(c, s.attempts[i])
    requires domain != "" && c.cap > 0 ==> Open(s.ledger, domain, c.cap)
    ensures var a := s.attempts[i].(stage := Reserved, domain := domain);
            LedgerMatchesAt(c, TakeSlot(c, s.ledger, domain), s.attempts[i := a], d)
  {
    var a := s.attempts[i].(stage := Reserved, domain := domain);
    GroupsAfterChange(s.attempts, i, a, d);
    ToggleSize(Holders(s.attempts, d), i);
    ToggleSize(Banked(s.attempts, d), i);
  }

  lemma ReserveKeeps(c: Config, s: State, i: nat)
    requires Accepted(c) && Inv(c, s) && Enabled(c, s, Reserve(i))
    ensures Inv(c, Apply(c, s, Reserve(i)))
  {
    var s' := Apply(c, s, Reserve(i));
    var domain := ChooseDomain(c, s.ledger).value;
    ChosenDomain(c, s.ledger, 0);
    MovedBookkeeping(c, s, s', i, s'.attempts[i]);
    MovedQuietly(c, s, s', i, s'.attempts[i]);
    forall d | d != "" ensures LedgerMatchesAt(c, s'.ledger, s'.attempts, d) {
      ReserveLedger(c, s, i, domain, d);
    }
  }

  /** The settled attempt's own domain: its slot goes back, and is banked if it filed. */
  lemma SettleOwnDomain(c: Config, l: Ledger, xs: seq<Attempt>, i: nat)
    requires i < |xs| && xs[i].domain != ""
    requires LedgerMatchesAt(c, l, xs, xs[i].domain)
    requires xs[i].stage == Reserved || xs[i].stage == FileTried
    ensures Tally(l.inflight, xs[i].domain) > 0
    ensures LedgerMatchesAt(c, GiveBack(l, xs[i].domain, xs[i].filed), xs[i := xs[i].(stage := Settled)], xs[i].domain)
  {
    hide Tally, Holders, Banked, GiveBack;
    var d := xs[i].domain;
    GroupsAfterSettle(xs, i, d);
    GiveBackTallies(l, d, xs[i].filed);
  }

  lemma GroupsAfterSettle(xs: seq<Attempt>, i: nat, d: string)
    requires i < |xs| && xs[i].domain == d && (xs[i].stage == Reserved || xs[i].stage == FileTried)
    ensures var ys := xs[i := xs[i].(stage := Settled)];
      |Holders(xs, d)| >= 1 && |Holders(ys, d)| == |Holders(xs, d)| - 1
      && |Banked(ys, d)| == |Banked(xs, d)| + if xs[i].filed then 1 else 0
  {
    assert i in Holders(xs, d) && i !in Banked(xs, d);
    hide Holders, Banked;
    GroupsAfterChange(xs, i, xs[i].(stage := Settled), d);
    ToggleSize(Holders(xs, d), i);
    ToggleSize(Banked(xs, d), i);
  }

  lemma GiveBackTallies(l: Ledger, d: string, filed: bool)
    requires d != "" && Tally(l.inflight, d) > 0
    ensures var l' := GiveBack(l, d, filed);
      Tally(l'.inflight, d) == Tally(l.inflight, d) - 1
      && Tally(l'.collected, d) == Tally(l.collected, d) + (if filed then 1 else 0)
      && (d in l'.inflight ==> l'.inflight[d] > 0)
  {
  }

  lemma SettleOtherDomain(c: Config, l: Ledger, xs: seq<Attempt>, i: nat, d: string)
    requires i < |xs| && d != xs[i].domain
    requires LedgerMatchesAt(c, l, xs, d)
    ensures LedgerMatchesAt(c, GiveBack(l, xs[i].domain, xs[i].filed), xs[i := xs[i].(stage := Settled)], d)
  {
    var ys := xs[i := xs[i].(stage := Settled)];
    var l' := GiveBack(l, xs[i].domain, xs[i].filed);
    assert Holders(ys, d) == Holders(xs, d);
    assert Banked(ys, d) == Banked(xs, d);
    assert Tally(l'.inflight, d) == Tally(l.inflight, d);
    assert Tally(l'.collected, d) == Tally(l.collected, d);
  }

  lemma SettleKeeps(c: Config, s: State, i: nat)
    requires Accepted(c) && Inv(c, s) && Enabled(c, s, Settle(i))
    ensures Inv(c, Apply(c, s, Settle(i)))
  {
    var s' := Apply(c, s, Settle(i));
    MovedBookkeeping(c, s, s', i, s'.attempts[i]);
    MovedQuietly(c, s, s', i, s'.attempts[i]);
    forall d | d != "" ensures LedgerMatchesAt(c, s'.ledger, s'.attempts, d) {
      assert LedgerMatchesAt(c, s.ledger, s.attempts, d);
      if d == s.attempts[i].domain {
        SettleOwnDomain(c, s.ledger, s.attempts, i);
      } else {
        SettleOtherDomain(c, s.ledger, s.attempts, i, d);
      }
    }
  }

  /** Moving between stages that hold and bank the same domains. */
  lemma SameLedger(c: Config, s: State, s': State, i: nat, a: Attempt)
    requires LedgerMatches(c, s) && Moved(c, s, s', i, a) && s'.ledger == s.ledger
    requires forall d :: d != "" ==> IsHolding(a, d) == IsHolding(s.attempts[i], d)
    requires forall d :: d != "" ==> IsBanked(a, d) == IsBanked(s.attempts[i], d)
    ensures LedgerMatches(c, s')
  {
    forall d | d != "" ensures LedgerMatchesAt(c, s'.ledger, s'.attempts, d) {
      GroupsAfterChange(s.attempts, i, a, d);
      ToggleSize(Holders(s.attempts, d), i);
      ToggleSize(Banked(s.attempts, d), i);
      assert LedgerMatchesAt(c, s.ledger, s.attempts, d);
    }
  }

  /** Filing: the attempt leaves the pending group and joins the filed one together with
      the counter, so both sides of the bound move in step. */
  lemma MovedFiling(c: Config, s: State, s': State, i: nat, a: Attempt)
    requires Bookkeeping(c, s) && WithinTarget(c, s) && Moved(c, s, s', i, a)
    requires Progress(c, s) == |Filed(s.attempts)|
    requires !s.attempts[i].filed && a.filed
    requires Progress(c, s') == Progress(c, s) + 1
    ensures Progress(c, s') == |Filed(s'.attempts)| && WithinTarget(c, s')
  {
    GroupsAfterChange(s.attempts, i, a, "");
    ToggleSize(Filed(s.attempts), i);
    ToggleSize(Pending(s.attempts), i);
    if s.control.AtActiveRead? {
      assert i in s.active;
      assert Filed(s'.attempts) * s.active == (Filed(s.attempts) * s.active) + {i};
      ToggleSize(Filed(s.attempts) * s.active, i);
    }
  }

  lemma CollectKeeps(c: Config, s: State, i: nat, path: string)
    requires Accepted(c) && Inv(c, s) && Enabled(c, s, Collect(i, path))
    ensures Inv(c, Apply(c, s, Collect(i, path)))
  {
    var s' := Apply(c, s, Collect(i, path));
    var a := s'.attempts[i];
    MovedBookkeeping(c, s, s', i, a);
    SameLedger(c, s, s', i, a);
    if a.filed {
      MovedFiling(c, s, s', i, a);
    } else {
      MovedQuietly(c, s, s', i, a);
    }
  }

  lemma BumpKeeps(c: Config, s: State, i: nat, text: string)
    requires Accepted(c) && Inv(c, s) && Enabled(c, s, Bump(i, text))
    ensures Inv(c, Apply(c, s, Bump(i, text)))
  {
    hide NameOf;
    var s' := Apply(c, s, Bump(i, text));
    var a := s'.attempts[i];
    MovedBookkeeping(c, s, s', i, a);
    SameLedger(c, s, s', i, a);
    if a.filed {
      MovedFiling(c, s, s', i, a);
    } else {
      MovedQuietly(c, s, s', i, a);
    }
  }

  lemma StartKeeps(c: Config, s: State, i: nat)
    requires Accepted(c) && Inv(c, s) && Enabled(c, s, Start(i))
    ensures Inv(c, Apply(c, s, Start(i)))
  {
    var s' := Apply(c, s, Start(i));
    MovedBookkeeping(c, s, s', i, s'.attempts[i]);
    MovedQuietly(c, s, s', i, s'.attempts[i]);
    SameLedger(c, s, s', i, s'.attempts[i]);
  }

  lemma EndKeeps(c: Config, s: State, i: nat)
    requires Accepted(c) && Inv(c, s) && Enabled(c, s, End(i))
    ensures Inv(c, Apply(c, s, End(i)))
  {
    var s' := Apply(c, s, End(i));
    MovedBookkeeping(c, s, s', i, s'.attempts[i]);
    MovedQuietly(c, s, s', i, s'.attempts[i]);
    SameLedger(c, s, s', i, s'.attempts[i]);
  }

  /** The counting fact the protocol turns on: listed attempts that filed since the stale
      reading and attempts still pending are disjoint parts of the active set. */
  lemma StaleReadingLeavesRoom(c: Config, s: State)
    requires Bookkeeping(c, s) && WithinTarget(c, s) && s.control.AtActiveRead?
    ensures Progress(c, s) + |Pending(s.attempts)| <= c.count - s.control.remaining + |s.active|
  {
    var filedListed, pending := Filed(s.attempts) * s.active, Pending(s.attempts);
    assert filedListed * pending == {};
    SubsetSize(filedListed + pending, s.active);
  }

  lemma SubmitLedger(c: Config, l: Ledger, xs: seq<Attempt>, d: string)
    requires LedgerMatchesAt(c, l, xs, d)
    ensures LedgerMatchesAt(c, l, xs + [Attempt(Queued, "", false)], d)
  {
    GroupsAfterSubmit(xs, d);
  }

  ghost predicate Submits(c: Config, s: State) {
    && s.control.AtActiveRead?
    && |s.active| < c.maxWorkers
    && |s.active| < s.control.remaining
  }

  lemma SubmitBooks(c: Config, s: State)
    requires Bookkeeping(c, s) && Submits(c, s)
    ensures Bookkeeping(c, OnCompareActive(c, s))
  {
    assert WellStaged(c, Attempt(Queued, "", false));
    hide WellStaged;
    var s' := OnCompareActive(c, s);
    var n := |s.attempts|;
    assert s'.attempts == s.attempts + [Attempt(Queued, "", false)] && s'.active == s.active + {n};
    assert s'.control == AtStopCheck;
    hide OnCompareActive;
    ToggleSize(s.active, n);
    forall i | 0 <= i < |s'.attempts| ensures WellStaged(c, s'.attempts[i]) {
      assert i < n ==> s'.attempts[i] == s.attempts[i];
    }
    forall i | 0 <= i < |s'.attempts| && s'.attempts[i].stage != Ended ensures i in s'.active {
      assert i < n ==> s'.attempts[i] == s.attempts[i];
    }
  }

  lemma SubmitTarget(c: Config, s: State)
    requires Bookkeeping(c, s) && FilesRecorded(c, s) && WithinTarget(c, s) && Submits(c, s)
    ensures FilesRecorded(c, OnCompareActive(c, s)) && WithinTarget(c, OnCompareActive(c, s))
  {
    StaleReadingLeavesRoom(c, s);
    GroupsAfterSubmit(s.attempts, "");
    ToggleSize(Pending(s.attempts), |s.attempts|);
  }

  lemma SubmitKeeps(c: Config, s: State)
    requires Accepted(c) && Inv(c, s) && s.control.AtActiveRead?
    ensures Inv(c, Apply(c, s, CompareActive))
  {
    hide Bookkeeping, FilesRecorded, WithinTarget, LedgerMatches, OnCompareActive;
    if Submits(c, s) {
      SubmitBooks(c, s);
      SubmitTarget(c, s);
      SubmitLedgers(c, s);
    } else {
      DeclineKeeps(c, s);
    }
  }

  lemma SubmitLedgers(c: Config, s: State)
    requires LedgerMatches(c, s) && Submits(c, s)
    ensures LedgerMatches(c, OnCompareActive(c, s))
  {
    hide LedgerMatchesAt;
    forall d | d != "" ensures LedgerMatchesAt(c, OnCompareActive(c, s).ledger, OnCompareActive(c, s).attempts, d) {
      SubmitLedger(c, s.ledger, s.attempts, d);
    }
  }

  /** Enough attempts are listed, or the count is reached: nothing is submitted. */
  lemma DeclineKeeps(c: Config, s: State)
    requires Accepted(c) && Inv(c, s) && s.control.AtActiveRead? && !Submits(c, s)
    ensures Inv(c, OnCompareActive(c, s))
  {
    hide LedgerMatchesAt;
    assert s.active != {} by {
      assert |s.active| > 0;
    }
    forall d | d != "" ensures LedgerMatchesAt(c, OnCompareActive(c, s).ledger, OnCompareActive(c, s).attempts, d) {
      assert LedgerMatchesAt(c, s.ledger, s.attempts, d);
    }
  }

  lemma HarvestKeeps(c: Config, s: State, done: set<nat>, sawStopped: bool)
    requires Accepted(c) && Inv(c, s) && Enabled(c, s, Harvest(done, sawStopped))
    ensures Inv(c, Apply(c, s, Harvest(done, sawStopped)))
  {
    SubsetSize(s.active - done, s.active);
  }

  lemma PollStopKeeps(c: Config, s: State)
    requires Accepted(c) && Inv(c, s) && Enabled(c, s, PollStop)
    ensures Inv(c, Apply(c, s, PollStop))
  {
    hide Bookkeeping, FilesRecorded, WithinTarget, LedgerMatches, OnPollStop;
    if s.stopped || s.stopRequested {
      CancelBooks(c, s);
      CancelTarget(c, s);
      CancelLedger(c, s);
    } else {
      QuietPoll(c, s);
    }
  }

  lemma QuietPoll(c: Config, s: State)
    requires Inv(c, s) && s.control == AtStopPoll && !s.stopped && !s.stopRequested
    ensures Inv(c, OnPollStop(s))
  {
    hide LedgerMatchesAt;
    forall d | d != "" ensures LedgerMatchesAt(c, OnPollStop(s).ledger, OnPollStop(s).attempts, d) {
      assert LedgerMatchesAt(c, s.ledger, s.attempts, d);
    }
  }

  lemma CancelBooks(c: Config, s: State)
    requires Bookkeeping(c, s) && (s.stopped || s.stopRequested)
    ensures Bookkeeping(c, OnPollStop(s))
  {
  }

  lemma CancelTarget(c: Config, s: State)
    requires FilesRecorded(c, s) && WithinTarget(c, s) && (s.stopped || s.stopRequested)
    ensures FilesRecorded(c, OnPollStop(s)) && WithinTarget(c, OnPollStop(s))
  {
    var s' := OnPollStop(s);
    assert Filed(s'.attempts) == Filed(s.attempts);
    assert Pending(s'.attempts) <= Pending(s.attempts);
    SubsetSize(Pending(s'.attempts), Pending(s.attempts));
  }

  lemma CancelLedger(c: Config, s: State)
    requires Bookkeeping(c, s) && LedgerMatches(c, s) && (s.stopped || s.stopRequested)
    ensures LedgerMatches(c, OnPollStop(s))
  {
    var s' := OnPollStop(s);
    forall d | d != "" ensures LedgerMatchesAt(c, s'.ledger, s'.attempts, d) {
      assert LedgerMatchesAt(c, s.ledger, s.attempts, d);
      assert Holders(s'.attempts, d) == Holders(s.attempts, d);
      assert Banked(s'.attempts, d) == Banked(s.attempts, d);
    }
  }

  lemma StepKeeps(c: Config, s: State, e: Event)
    requires Accepted(c) && Inv(c, s) && Enabled(c, s, e)
    ensures Inv(c, Apply(c, s, e))
  {
    match e
    case Reserve(i) => ReserveKeeps(c, s, i);
    case Settle(i) => SettleKeeps(c, s, i);
    case Collect(i, path) => CollectKeeps(c, s, i, path);
    case Bump(i, text) => BumpKeeps(c, s, i, text);
    case Start(i) => StartKeeps(c, s, i);
    case End(i) => EndKeeps(c, s, i);
    case CompareActive => SubmitKeeps(c, s);
    case Harvest(done, sawStopped) => HarvestKeeps(c, s, done, sawStopped);
    case PollStop => PollStopKeeps(c, s);
    case _ =>
  }

  lemma {:induction false} RunKeeps(c: Config, s: State, es: seq<Event>)
    requires Accepted(c) && Inv(c, s) && Legal(c, s, es)
    ensures Inv(c, After(c, s, es))
    decreases |es|
  {
    if |es| > 0 {
      StepKeeps(c, s, es[0]);
      RunKeeps(c, Apply(c, s, es[0]), es[1..]);
    }
  }
}
