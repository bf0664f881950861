/** The runner's books, told from the events of a run alone (api/tasks.py, `_run_register`):
    which successes are counted, which files collected, which attempts listed, which domains
    given out, and what a stop does. */
module DispatchBooks {
  import opened Basics
  import opened Text
  import opened DispatchSpec
  import opened DispatchSafety
  import opened DispatchTheorems

  // ---- successes of a long run --------------------------------------------------------------------

  /** The address that an event reports as a success, in lower case and without surrounding blanks;
      empty when it reports none. */
  predicate Names(e: Event, email: string) { e.Bump? && Lower(Strip(e.text)) == email }

  function NameIn(e: Event): set<string> {
    if e.Bump? && Lower(Strip(e.text)) != "" then {Lower(Strip(e.text))} else {}
  }

  /** The addresses reported as successes. */
  function Reported(es: seq<Event>): set<string> {
    if |es| == 0 then {} else NameIn(es[0]) + Reported(es[1..])
  }

  /** How many successes were reported without an address. */
  function Nameless(es: seq<Event>): nat {
    if |es| == 0 then 0 else (if Names(es[0], "") then 1 else 0) + Nameless(es[1..])
  }

  lemma BumpCounts(s: State, i: nat, text: string)
    requires i < |s.attempts|
    ensures var s', e := OnBump(s, i, text), Bump(i, text);
      s'.successEmails == s.successEmails + NameIn(e)
      && s'.successes - |s'.successEmails| == s.successes - |s.successEmails| + if Names(e, "") then 1 else 0
  {
    hide Strip, Lower;
    var email := NameOf(text);
    assert s.successEmails + {} == s.successEmails;
    if email in s.successEmails {
      assert s.successEmails + {email} == s.successEmails;
    }
  }

  lemma StepCounts(c: Config, s: State, e: Event)
    requires Enabled(c, s, e)
    ensures var s' := Apply(c, s, e);
      s'.successEmails == s.successEmails + NameIn(e)
      && s'.successes - |s'.successEmails| == s.successes - |s.successEmails| + if Names(e, "") then 1 else 0
  {
    hide Strip, Lower, OnBump, TakeSlot, GiveBack, Cancelled;
    if e.Bump? {
      BumpCounts(s, e.i, e.text);
    }
    assert s.successEmails + {} == s.successEmails;
  }

  lemma {:induction false} RunCounts(c: Config, s: State, es: seq<Event>)
    requires Legal(c, s, es)
    ensures var s' := After(c, s, es);
      s'.successEmails == s.successEmails + Reported(es)
      && s'.successes - |s'.successEmails| == s.successes - |s.successEmails| + Nameless(es)
    decreases |es|
  {
    hide Apply, Enabled, NameIn, Names;
    if |es| > 0 {
      StepCounts(c, s, es[0]);
      RunCounts(c, Apply(c, s, es[0]), es[1..]);
      assert s.successEmails + NameIn(es[0]) + Reported(es[1..]) == s.successEmails + Reported(es);
    } else {
      assert s.successEmails + {} == s.successEmails;
    }
  }

  /** Over every run, the counter is the number of different addresses reported so far plus the
      reports without one; so an attempt advances it exactly when it reports no address or a new
      one. */
  lemma SuccessesAreReports(c: Config, es: seq<Event>, s: State)
    requires Reaches(c, es, s)
    ensures s.successEmails == Reported(es) && s.successes == |Reported(es)| + Nameless(es)
    ensures forall i: nat, text :: Enabled(c, s, Bump(i, text)) ==>
      var (after, email) := (Apply(c, s, Bump(i, text)), Lower(Strip(text)));
      && after.successes == s.successes + (if email == "" || email !in Reported(es) then 1 else 0)
      && (after.attempts[i].filed <==> email == "" || email !in Reported(es))
  {
    hide Strip, Lower;
    RunCounts(c, Initial(), es);
  }

  // ---- files of a bundle run -----------------------------------------------------------------------

  /** The non-empty paths offered, each at its first appearance. */
  function Offered(es: seq<Event>, seen: set<string>): seq<string> {
    if |es| == 0 then []
    else if es[0].Collect? && es[0].path != "" && es[0].path !in seen
    then [es[0].path] + Offered(es[1..], seen + {es[0].path})
    else Offered(es[1..], seen)
  }

  lemma StepCollects(c: Config, s: State, e: Event)
    requires Accepted(c) && Inv(c, s) && Enabled(c, s, e)
    ensures var s' := Apply(c, s, e);
      if e.Collect? && e.path != "" && e.path !in s.fileSet
      then s'.files == s.files + [e.path] && s'.fileSet == s.fileSet + {e.path}
      else s'.files == s.files && s'.fileSet == s.fileSet
  {
    hide LedgerMatches, Bookkeeping, TakeSlot, GiveBack, Cancelled, NameOf;
    if e.Collect? {
      assert e.i in Pending(s.attempts) by {
        hide *;
        PendingToCollect(c, s, e);
      }
      assert |Pending(s.attempts)| >= 1;
    }
  }

  lemma PendingToCollect(c: Config, s: State, e: Event)
    requires Bookkeeping(c, s) && Enabled(c, s, e) && e.Collect?
    ensures e.i in Pending(s.attempts)
  {
    assert WellStaged(c, s.attempts[e.i]);
  }

  lemma {:induction false} RunCollects(c: Config, s: State, es: seq<Event>)
    requires Accepted(c) && Inv(c, s) && Legal(c, s, es)
    ensures After(c, s, es).files == s.files + Offered(es, s.fileSet)
    decreases |es|
  {
    hide Apply, Enabled, Inv;
    if |es| > 0 {
      StepCollects(c, s, es[0]);
      StepKeeps(c, s, es[0]);
      RunCollects(c, Apply(c, s, es[0]), es[1..]);
    }
  }

  /** Over every run, the collected files are exactly the non-empty paths that attempts offered,
      each once and in the order of first offer: none is turned away and none invented. */
  lemma FilesAreTheOffers(c: Config, es: seq<Event>, s: State)
    requires Reaches(c, es, s)
    ensures s.files == Offered(es, {})
  {
    hide Inv;
    InitialInv(c);
    RunCollects(c, Initial(), es);
  }

  // ---- the listed attempts ---------------------------------------------------------------------------

  /** Every future that some harvest has popped. */
  function Harvested(es: seq<Event>): set<nat> {
    if |es| == 0 then {} else (if es[0].Harvest? then es[0].done else {}) + Harvested(es[1..])
  }

  lemma StepLists(c: Config, s: State, e: Event)
    requires Enabled(c, s, e)
    ensures var s' := Apply(c, s, e);
      |s.attempts| <= |s'.attempts|
      && forall i: nat :: i in s'.active <==>
           (i in s.active && !(e.Harvest? && i in e.done)) || |s.attempts| <= i < |s'.attempts|
  {
    hide TakeSlot, GiveBack, NameOf;
  }

  lemma {:induction false} RunLists(c: Config, s: State, es: seq<Event>)
    requires Accepted(c) && Inv(c, s) && Legal(c, s, es)
    ensures var s' := After(c, s, es);
      |s.attempts| <= |s'.attempts|
      && forall i: nat :: i in s'.active <==>
           (i in s.active || |s.attempts| <= i < |s'.attempts|) && i !in Harvested(es)
    decreases |es|
  {
    hide Apply, FilesRecorded, WithinTarget, LedgerMatches, Enabled;
    if |es| > 0 {
      StepLists(c, s, es[0]);
      if es[0].Harvest? {
        HarvestIsListed(c, s, es[0]);
      }
      StepKeeps(c, s, es[0]);
      RunLists(c, Apply(c, s, es[0]), es[1..]);
      hide Inv;
    }
  }

  lemma HarvestIsListed(c: Config, s: State, e: Event)
    requires Bookkeeping(c, s) && Enabled(c, s, e) && e.Harvest?
    ensures forall i :: i in e.done ==> i in s.active && i < |s.attempts|
  {
  }

  /** Over every run, the listed attempts are exactly those submitted and not yet harvested. */
  lemma ListedAreUnharvested(c: Config, es: seq<Event>, s: State)
    requires Reaches(c, es, s)
    ensures forall i: nat :: i in s.active <==> i < |s.attempts| && i !in Harvested(es)
  {
    hide Inv;
    InitialInv(c);
    RunLists(c, Initial(), es);
  }

  // ---- submitting enough -------------------------------------------------------------------------------

  /** While nobody has asked to stop, the dispatcher only waits when its workers are busy or what is
      running can reach the target; between its two looks it never asks for less than is missing. */
  ghost predicate Busy(c: Config, s: State) {
    && (s.control.AtActiveRead? ==> s.control.remaining >= c.count - Progress(c, s))
    && (s.control == AtWait && !s.stopped && !s.stopRequested ==>
          |s.active| >= c.maxWorkers || Progress(c, s) + |s.active| >= c.count)
  }

  lemma BusyStep(c: Config, s: State, e: Event)
    requires Busy(c, s) && Enabled(c, s, e)
    ensures Busy(c, Apply(c, s, e))
  {
    hide TakeSlot, GiveBack, NameOf, Cancelled;
  }

  lemma {:induction false} BusyRun(c: Config, s: State, es: seq<Event>)
    requires Busy(c, s) && Legal(c, s, es)
    ensures Busy(c, After(c, s, es))
    decreases |es|
  {
    hide Apply, Enabled, Busy;
    if |es| > 0 {
      BusyStep(c, s, es[0]);
      BusyRun(c, Apply(c, s, es[0]), es[1..]);
    }
  }

  /** The counterpart of never overshooting: without a stop, whenever the dispatcher waits, all
      workers are busy or the listed attempts would reach the target if they all succeeded. */
  lemma WorkersAreBusy(c: Config, es: seq<Event>, s: State)
    requires Reaches(c, es, s) && s.control == AtWait && !s.stopped && !s.stopRequested
    ensures |s.active| == c.maxWorkers || Progress(c, s) + |s.active| >= c.count
  {
    NeverOvershoots(c, es, s);
    hide Progress;
    BusyRun(c, Initial(), es);
  }

  // ---- stopping ------------------------------------------------------------------------------------------

  /** A submission round that has already passed its stop check may submit one more attempt. */
  predicate MidRound(s: State) { s.control == AtCountRead || s.control.AtActiveRead? }

  lemma StopStep(c: Config, s: State, e: Event)
    requires Enabled(c, s, e) && (s.stopped || s.stopRequested)
    ensures var s' := Apply(c, s, e);
      && (s'.stopped || s'.stopRequested)
      && |s'.attempts| + (if MidRound(s') then 1 else 0) <= |s.attempts| + if MidRound(s) then 1 else 0
  {
    hide TakeSlot, GiveBack, NameOf;
  }

  /** Once a stop is asked for or seen, at most the round under way submits one more attempt, over
      any continuation. */
  lemma {:induction false} StopSubmitsAtMostOne(c: Config, s: State, es: seq<Event>)
    requires Legal(c, s, es) && (s.stopped || s.stopRequested)
    ensures |After(c, s, es).attempts| <= |s.attempts| + if MidRound(s) then 1 else 0
    decreases |es|
  {
    hide Apply, Enabled, MidRound;
    if |es| > 0 {
      StopStep(c, s, es[0]);
      StopSubmitsAtMostOne(c, Apply(c, s, es[0]), es[1..]);
    }
  }

  /** A harvest that meets a stopped attempt is the end of submitting. */
  lemma SeenStopEndsSubmitting(c: Config, s: State, done: set<nat>, es: seq<Event>)
    requires Enabled(c, s, Harvest(done, true)) && Legal(c, Apply(c, s, Harvest(done, true)), es)
    ensures var s' := After(c, Apply(c, s, Harvest(done, true)), es);
      s'.stopped && |s'.attempts| <= |s.attempts|
  {
    var s1 := Apply(c, s, Harvest(done, true));
    StopSubmitsAtMostOne(c, s1, es);
    RunIsMonotone(c, s1, es);
  }

  /** Where stops come from. */
  predicate AsksToStop(e: Event) { e.RequestStop? || (e.Harvest? && e.sawStopped) }

  lemma StopStepHasACause(c: Config, s: State, e: Event)
    requires Enabled(c, s, e)
    ensures var s' := Apply(c, s, e);
      && (s'.stopRequested <==> s.stopRequested || e.RequestStop?)
      && (s'.stopped || s'.stopRequested <==> s.stopped || s.stopRequested || AsksToStop(e))
  {
    hide TakeSlot, GiveBack, NameOf;
  }

  lemma {:induction false} StopHasACause(c: Config, s: State, es: seq<Event>)
    requires Legal(c, s, es)
    ensures var s' := After(c, s, es);
      (s'.stopped || s'.stopRequested <==>
       s.stopped || s.stopRequested || exists k :: 0 <= k < |es| && AsksToStop(es[k]))
    decreases |es|
  {
    hide Apply, Enabled, AsksToStop;
    if |es| > 0 {
      StopStepHasACause(c, s, es[0]);
      StopHasACause(c, Apply(c, s, es[0]), es[1..]);
      if k :| 0 <= k < |es| && AsksToStop(es[k]) {
        assert k > 0 ==> AsksToStop(es[1..][k - 1]);
      }
    }
  }

  /** A run in which nobody asks to stop and whose loop is left has reached the target. */
  lemma UnaskedRunsComplete(c: Config, es: seq<Event>, s: State)
    requires Reaches(c, es, s) && s.control.LoopLeft?
    requires forall k :: 0 <= k < |es| ==> !AsksToStop(es[k])
    ensures Progress(c, s) == c.count
  {
    StopHasACause(c, Initial(), es);
    LoopEndsComplete(c, es, s);
  }

  /** After a stop has left the loop no attempt is waiting to start. */
  ghost predicate NobodyQueued(s: State) {
    s.control == LoopLeft(true) ==> forall i :: 0 <= i < |s.attempts| ==> s.attempts[i].stage != Queued
  }

  lemma NobodyQueuedStep(c: Config, s: State, e: Event)
    requires NobodyQueued(s) && Bookkeeping(c, s) && Enabled(c, s, e)
    ensures NobodyQueued(Apply(c, s, e))
  {
    hide TakeSlot, GiveBack, NameOf, WellStaged;
  }

  lemma {:induction false} NobodyQueuedRun(c: Config, s: State, es: seq<Event>)
    requires Accepted(c) && Inv(c, s) && NobodyQueued(s) && Legal(c, s, es)
    ensures NobodyQueued(After(c, s, es))
    decreases |es|
  {
    hide Apply, Enabled, NobodyQueued, FilesRecorded, WithinTarget, LedgerMatches;
    if |es| > 0 {
      NobodyQueuedStep(c, s, es[0]);
      StepKeeps(c, s, es[0]);
      NobodyQueuedRun(c, Apply(c, s, es[0]), es[1..]);
    }
  }

  /** Leaving on a stop cancels: from then on no attempt starts, in any run. */
  lemma StoppedStartsNothing(c: Config, es: seq<Event>, s: State, i: nat)
    requires Reaches(c, es, s) && s.control == LoopLeft(true)
    ensures !Enabled(c, s, Start(i))
  {
    hide Inv;
    InitialInv(c);
    NobodyQueuedRun(c, Initial(), es);
  }

  /** And it cancels nothing else: attempts that run go on to settle their slots. */
  lemma StopSparesTheRunning(c: Config, es: seq<Event>, s: State, i: nat)
    requires Reaches(c, es, s) && Enabled(c, s, PollStop) && i < |s.attempts| && s.attempts[i].stage != Queued
    ensures |Apply(c, s, PollStop).attempts| == |s.attempts| && Apply(c, s, PollStop).attempts[i] == s.attempts[i]
  {
  }

  // ---- domains ----------------------------------------------------------------------------------------------

  /** Under a cap: the first domain, in the request's order, whose slots held or banked are fewer
      than the cap; all before it are full. */
  lemma {:induction false} FirstOpenIsFirst(l: Ledger, domains: seq<string>, cap: nat, from: nat) returns (k: nat)
    requires from <= |domains|
    ensures from <= k <= |domains|
    ensures forall j :: from <= j < k ==> Tally(l.collected, domains[j]) + Tally(l.inflight, domains[j]) >= cap
    ensures k < |domains| ==>
      FirstOpen(l, domains, cap, from) == Some(domains[k])
      && Tally(l.collected, domains[k]) + Tally(l.inflight, domains[k]) < cap
    ensures k == |domains| ==> FirstOpen(l, domains, cap, from) == None
    decreases |domains| - from
  {
    hide Tally;
    k := from;
    if from < |domains| && !Open(l, domains[from], cap) {
      k := FirstOpenIsFirst(l, domains, cap, from + 1);
    }
  }

  /** The slots of domain `d` that attempts hold or have banked. */
  function InUse(s: State, d: string): nat { |Holders(s.attempts, d)| + |Banked(s.attempts, d)| }

  /** Over every run under a cap, a reservation takes the first domain of the request that is not
      full - fewer attempts hold or have banked its slots than the cap - and fails exactly when
      every domain is full. */
  lemma ReservationTakesFirstWithRoom(c: Config, es: seq<Event>, s: State) returns (k: nat)
    requires Reaches(c, es, s) && c.cap > 0 && |c.domains| > 0
    ensures k <= |c.domains| && forall j :: 0 <= j < k ==> InUse(s, c.domains[j]) == c.cap
    ensures ChooseDomain(c, s.ledger) == if k < |c.domains| then Some(c.domains[k]) else None
    ensures k < |c.domains| ==> InUse(s, c.domains[k]) < c.cap
  {
    k := FirstOpenIsFirst(s.ledger, c.domains, c.cap, 0);
    forall j | 0 <= j < |c.domains|
      ensures InUse(s, c.domains[j])
           == Tally(s.ledger.collected, c.domains[j]) + Tally(s.ledger.inflight, c.domains[j]) <= c.cap
    {
      LedgerIsExact(c, es, s, c.domains[j]);
    }
  }

  function Reservations(es: seq<Event>): nat {
    if |es| == 0 then 0 else (if es[0].Reserve? then 1 else 0) + Reservations(es[1..])
  }

  lemma TurnStep(c: Config, s: State, e: Event)
    requires Enabled(c, s, e) && c.cap == 0 && |c.domains| > 0 && "" !in c.domains
    ensures Apply(c, s, e).ledger.turn == s.ledger.turn + if e.Reserve? then 1 else 0
  {
    hide NameOf;
  }

  lemma {:induction false} TurnsAreReservations(c: Config, s: State, es: seq<Event>)
    requires Legal(c, s, es) && c.cap == 0 && |c.domains| > 0 && "" !in c.domains
    ensures After(c, s, es).ledger.turn == s.ledger.turn + Reservations(es)
    decreases |es|
  {
    hide Apply, Enabled;
    if |es| > 0 {
      TurnStep(c, s, es[0]);
      TurnsAreReservations(c, Apply(c, s, es[0]), es[1..]);
    }
  }

  /** Without a cap the domains take turns: the n-th reservation of a run, counted from 0, gets
      domain n modulo their number. */
  lemma DomainsTakeTurns(c: Config, es: seq<Event>, s: State, i: nat)
    requires Reaches(c, es, s) && c.cap == 0 && |c.domains| > 0 && Enabled(c, s, Reserve(i))
    ensures Apply(c, s, Reserve(i)).attempts[i].domain == c.domains[Reservations(es) % |c.domains|]
  {
    TurnsAreReservations(c, Initial(), es);
  }
}
