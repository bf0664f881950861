/** The bounded startup retry (core/browser_startup.py, `start_local_browser`) as a function of
    the operating system's schedule, and what a further launch may rely on. */
module StartupSpec {
  import opened Basics
  import opened ProcessWorld
  import opened BrowserCleanup
  import opened CleanupAnswers

  datatype Reason =
    | CdpNotReady | BrowserConnectError | BrowserAttachTimeout | ProcessExited
    | ConfigurationError | InitializationFailed

  predicate Transient(r: Reason) {
    r == CdpNotReady || r == BrowserConnectError || r == BrowserAttachTimeout || r == ProcessExited
  }

  /** How one attempt goes, decided by the environment. */
  datatype Course =
    | NoOwner(why: Reason)      // the temporary profile could not be created
    | NotLaunched(why: Reason)  // options or executable failed before a process existed
    | Fails(why: Reason)        // launched, then failed
    | TimesOut                  // the attach thread is still running when the budget ends
    | Interrupted(owned: bool)  // not an ordinary exception
    | Attaches

  /** When the attach thread of a timed-out attempt runs its own cleanup: never, before the
      attempt's own cleanup (it gets the lock first), or at any time after it - before or during
      the next attempt, or after the caller has got its answer. */
  datatype Wake = Never | First(delay: nat) | Afterwards(delay: nat)

  /** One attempt's circumstances: its course, what it owns, how often it looked for its
      listener while waiting, and when its attach thread wakes if it timed out. */
  datatype Plan = Plan(course: Course, key: Key, polls: nat, wake: Wake)

  /** One whole cleanup: when it began, the book and the time at which it concluded, and its
      verdict. */
  datatype Closing = Closing(began: nat, book: Book, at: nat, verdict: Verdict)

  /** One attempt that owned a profile.  `closing` is its own cleanup, absent when the page is
      kept; `early` and `late` are the attach thread's cleanup before or after that. */
  datatype Trial = Trial(
    key: Key, began: nat, launched: bool, timedOut: bool, book: Book,
    early: Option<Closing>, closing: Option<Closing>, late: Option<Closing>)

  datatype Outcome =
    | InvalidArguments
    | Page
    | Failed(reason: Reason, attempts: nat, retryable: bool)
    | Aborted

  datatype Startup = Startup(outcome: Outcome, trials: seq<Trial>)

  // ---- one attempt --------------------------------------------------------------------------------

  /** `cleanup`: the sweep, if anything was launched, and the conclusion. */
  function CleanupOf(world: World, k: Key, launched: bool, b: Book, now: nat): Closing {
    if launched then
      var w := SweepProcesses(world, k, b, now);
      Closing(now, w.book, w.at, Conclude(world, k, w.book, w.at))
    else Closing(now, b, now, Conclude(world, k, b, now))
  }

  /** `owns_listener` as far as the book is concerned: capture, then look who is live. */
  function Watch(world: World, k: Key, b: Book, now: nat): Book {
    var c := Capture(world, k, b, now);
    c.(uncertain := c.uncertain || LiveRefused(world, c.known, now + 2, |c.known|))
  }

  function WatchDone(world: World, k: Key, b: Book, now: nat): nat {
    now + 2 + |Capture(world, k, b, now).known|
  }

  /** The book and the time after `n` looks for the listener. */
  function Watched(world: World, k: Key, b: Book, now: nat, n: nat): (Book, nat)
    decreases n
  {
    if n == 0 then (b, now) else Watched(world, k, Watch(world, k, b, now), WatchDone(world, k, b, now), n - 1)
  }

  function Blank(): Book { Book([], false) }

  /** The book and the time when the attempt is over, before any cleanup. */
  function Tried(world: World, plan: Plan, now: nat): (Book, nat) {
    if plan.course.NotLaunched? then (Blank(), now)
    else Watched(world, plan.key, Capture(world, plan.key, Blank(), now), now + 2, plan.polls)
  }

  /** The attach thread's cleanup, if it comes first. */
  function Early(world: World, plan: Plan, book: Book, at: nat): Option<Closing> {
    if plan.course.TimesOut? && plan.wake.First?
    then Some(CleanupOf(world, plan.key, true, book, at + plan.wake.delay)) else None
  }

  /** The attempt's own cleanup. */
  function Own(world: World, plan: Plan, book: Book, at: nat): Closing {
    var early := Early(world, plan, book, at);
    if early.Some? then CleanupOf(world, plan.key, true, early.value.verdict.book, early.value.verdict.later)
    else CleanupOf(world, plan.key, !plan.course.NotLaunched?, book, at)
  }

  /** The attach thread's cleanup, if it comes after the own one. */
  function Late(world: World, plan: Plan, own: Closing): Option<Closing> {
    if plan.course.TimesOut? && plan.wake.Afterwards?
    then Some(CleanupOf(world, plan.key, true, own.verdict.book, own.verdict.later + plan.wake.delay)) else None
  }

  function TrialOf(world: World, plan: Plan, now: nat): Trial {
    var (book, at) := Tried(world, plan, now);
    var launched, own := !plan.course.NotLaunched?, Own(world, plan, book, at);
    if plan.course.Attaches? then Trial(plan.key, now, launched, false, book, None, None, None)
    else
      Trial(plan.key, now, launched, plan.course.TimesOut?, book,
            Early(world, plan, book, at), Some(own), Late(world, plan, own))
  }

  /** When the next attempt may begin; nobody waits for the attach thread. */
  function TrialDone(world: World, plan: Plan, now: nat): nat {
    var closing := TrialOf(world, plan, now).closing;
    if closing.Some? then closing.value.verdict.later else Tried(world, plan, now).1
  }

  // ---- the retry loop ----------------------------------------------------------------------------------

  /** Attempts from number `attempt` on; `trials` is what came before. */
  function Attempt(
      world: World, script: nat -> Plan, max: nat, attempt: nat, now: nat, trials: seq<Trial>): Startup
    requires 1 <= attempt <= max
    decreases max - attempt, 1
  {
    var plan := script(attempt);
    if plan.course == Interrupted(false) then Startup(Aborted, trials)
    else if plan.course.NoOwner? then Retry(world, script, max, attempt, now, trials, Why(plan.course), true)
    else
      var trial := TrialOf(world, plan, now);
      var all := trials + [trial];
      if trial.closing.None? then Startup(Page, all)
      else if plan.course.Interrupted? then Startup(Aborted, all)
      else
        Retry(world, script, max, attempt, TrialDone(world, plan, now), all, Why(plan.course),
          trial.closing.value.verdict.ok)
  }

  /** The reason an unsuccessful attempt is reported with. */
  function Why(course: Course): Reason {
    match course
    case NoOwner(why) => why
    case NotLaunched(why) => why
    case Fails(why) => why
    case TimesOut => BrowserAttachTimeout
    case _ => InitializationFailed
  }

  function Retry(
      world: World, script: nat -> Plan, max: nat, attempt: nat, now: nat, trials: seq<Trial>,
      reason: Reason, cleaned: bool): Startup
    requires 1 <= attempt <= max
    decreases max - attempt, 0
  {
    var retryable := cleaned && Transient(reason);
    if !retryable || attempt == max then Startup(Failed(reason, attempt, retryable), trials)
    else Attempt(world, script, max, attempt + 1, now, trials)
  }

  predicate Valid(timeout: real, maxAttempts: int) { 0.0 < timeout <= 60.0 && 1 <= maxAttempts <= 2 }

  /** `start_local_browser`. */
  function Start(world: World, script: nat -> Plan, timeout: real, maxAttempts: int, now: nat): Startup {
    if Valid(timeout, maxAttempts) then Attempt(world, script, maxAttempts, 1, now, [])
    else Startup(InvalidArguments, [])
  }

  // The same, one layer at a time.

  lemma StartUnfolds(world: World, script: nat -> Plan, timeout: real, maxAttempts: int, now: nat)
    ensures Start(world, script, timeout, maxAttempts, now)
         == if Valid(timeout, maxAttempts)
           then Attempt(world, script, maxAttempts, 1, now, []) else Startup(InvalidArguments, [])
  {
  }

  lemma Unfold(world: World, script: nat -> Plan, max: nat, attempt: nat, now: nat, trials: seq<Trial>)
    requires 1 <= attempt <= max
    ensures var plan := script(attempt);
      Attempt(world, script, max, attempt, now, trials) ==
      if plan.course == Interrupted(false) then Startup(Aborted, trials)
      else if plan.course.NoOwner? then Retry(world, script, max, attempt, now, trials, Why(plan.course), true)
      else
        var trial := TrialOf(world, plan, now);
        if trial.closing.None? then Startup(Page, trials + [trial])
        else if plan.course.Interrupted? then Startup(Aborted, trials + [trial])
        else Retry(world, script, max, attempt, TrialDone(world, plan, now), trials + [trial],
                   Why(plan.course), trial.closing.value.verdict.ok)
  {
    hide TrialOf, TrialDone, Why;
  }

  lemma UnfoldRetry(
      world: World, script: nat -> Plan, max: nat, attempt: nat, now: nat, trials: seq<Trial>,
      reason: Reason, cleaned: bool)
    requires 1 <= attempt <= max
    ensures Retry(world, script, max, attempt, now, trials, reason, cleaned) ==
      if !(cleaned && Transient(reason)) || attempt == max
      then Startup(Failed(reason, attempt, cleaned && Transient(reason)), trials)
      else Attempt(world, script, max, attempt + 1, now, trials)
  {
    hide Attempt;
  }

  // ---- what the trials look like ---------------------------------------------------------------------------

  /** The trial's cleanup answered true before `time`. */
  ghost predicate CleanedBefore(t: Trial, time: nat) {
    t.closing.Some? && t.closing.value.verdict.ok && t.closing.value.verdict.later <= time
  }

  /** The trial's own cleanup and that of its attach thread are whole cleanups of its browser, one
      after the other, each from the book that the one before left. */
  ghost predicate Concluded(world: World, t: Trial) {
    && (t.early.Some? || t.late.Some? ==> t.timedOut && t.launched && t.closing.Some?)
    && (t.early.Some? ==> Continues(world, t, t.book, t.began, t.early.value))
    && (t.closing.Some? ==>
          if t.early.Some?
          then Continues(world, t, t.early.value.verdict.book, t.early.value.verdict.later, t.closing.value)
          else Continues(world, t, t.book, t.began, t.closing.value))
    && (t.late.Some? ==>
          Continues(world, t, t.closing.value.verdict.book, t.closing.value.verdict.later, t.late.value))
  }

  /** `c` is a cleanup of the trial's browser from book `b`, not before `since`. */
  ghost predicate Continues(world: World, t: Trial, b: Book, since: nat, c: Closing) {
    c == CleanupOf(world, t.key, t.launched, b, c.began) && c.began >= since
  }

  /** What holds of the trials so far when the time is `now`; `open` when the last one may not
      have been cleaned. */
  ghost predicate Disciplined(world: World, trials: seq<Trial>, now: nat, open: bool) {
    && (forall i :: 0 <= i < |trials| ==> Concluded(world, trials[i]))
    && (forall i :: 0 <= i < |trials| - 1 ==> CleanedBefore(trials[i], trials[i + 1].began))
    && (!open && |trials| > 0 ==> CleanedBefore(trials[|trials| - 1], now))
  }

  ghost predicate OutcomeFits(s: Startup, max: nat) {
    && |s.trials| <= max
    && (s.outcome.Page? ==> |s.trials| > 0 && s.trials[|s.trials| - 1].closing.None?)
    && (!s.outcome.Page? ==> forall i :: 0 <= i < |s.trials| ==> s.trials[i].closing.Some?)
    && (s.outcome.Failed? ==>
          1 <= s.outcome.attempts <= max
          && (s.outcome.attempts < max ==> !s.outcome.retryable)
          && (s.outcome.retryable ==>
                Transient(s.outcome.reason)
                && forall i :: 0 <= i < |s.trials| ==>
                  s.trials[i].closing.Some? && s.trials[i].closing.value.verdict.ok))
  }

  ghost predicate Good(world: World, s: Startup, max: nat) {
    Disciplined(world, s.trials, 0, true) && OutcomeFits(s, max)
  }

  // ---- times only move on --------------------------------------------------------------------------------------

  lemma SweepTakesTime(world: World, k: Key, b: Book, now: nat)
    ensures SweepProcesses(world, k, b, now).at >= now
  {
  }

  lemma ConcludeTakesTime(world: World, k: Key, b: Book, at: nat)
    ensures Conclude(world, k, b, at).later >= at
  {
  }

  lemma CleanupTakesTime(world: World, k: Key, launched: bool, b: Book, now: nat)
    ensures var c := CleanupOf(world, k, launched, b, now);
      c.verdict == Conclude(world, k, c.book, c.at) && c.began == now <= c.at <= c.verdict.later
  {
    hide SweepProcesses, Conclude;
    SweepTakesTime(world, k, b, now);
    var c := CleanupOf(world, k, launched, b, now);
    ConcludeTakesTime(world, k, c.book, c.at);
  }

  lemma {:induction false} WatchingTakesTime(world: World, k: Key, b: Book, now: nat, n: nat)
    ensures Watched(world, k, b, now, n).1 >= now
    decreases n
  {
    hide Capture, LiveRefused;
    if n > 0 {
      WatchingTakesTime(world, k, Watch(world, k, b, now), WatchDone(world, k, b, now), n - 1);
    }
  }

  lemma TriedTakesTime(world: World, plan: Plan, now: nat)
    ensures Tried(world, plan, now).1 >= now
  {
    hide Watched, Capture;
    if !plan.course.NotLaunched? {
      WatchingTakesTime(world, plan.key, Capture(world, plan.key, Blank(), now), now + 2, plan.polls);
    }
  }

  lemma TrialConcludes(world: World, plan: Plan, now: nat)
    ensures var t := TrialOf(world, plan, now);
      Concluded(world, t) && t.began == now && TrialDone(world, plan, now) >= now
      && (t.closing.None? <==> plan.course.Attaches?)
      && (t.closing.Some? ==> t.closing.value.verdict.later == TrialDone(world, plan, now))
  {
    hide Tried, CleanupOf;
    TriedTakesTime(world, plan, now);
    var (book, at) := Tried(world, plan, now);
    var launched, own := !plan.course.NotLaunched?, Own(world, plan, book, at);
    CleanupTakesTime(world, plan.key, launched, book, at);
    if plan.wake.First? {
      CleanupTakesTime(world, plan.key, true, book, at + plan.wake.delay);
      var early := CleanupOf(world, plan.key, true, book, at + plan.wake.delay);
      CleanupTakesTime(world, plan.key, true, early.verdict.book, early.verdict.later);
    }
    if plan.wake.Afterwards? {
      CleanupTakesTime(world, plan.key, true, own.verdict.book, own.verdict.later + plan.wake.delay);
    }
  }

  // ---- the discipline over every schedule -------------------------------------------------------------------------

  lemma LaterStaysDisciplined(world: World, trials: seq<Trial>, now: nat, later: nat)
    requires Disciplined(world, trials, now, false) && now <= later
    ensures Disciplined(world, trials, later, false) && Disciplined(world, trials, 0, true)
  {
  }

  lemma TrialKeeps(world: World, trials: seq<Trial>, t: Trial, now: nat)
    requires Disciplined(world, trials, now, false)
    requires Concluded(world, t) && t.began == now
    ensures Disciplined(world, trials + [t], 0, true)
    ensures forall later :: CleanedBefore(t, later) ==> Disciplined(world, trials + [t], later, false)
  {
    hide Concluded;
    var all := trials + [t];
    forall i | 0 <= i < |all| - 1 ensures CleanedBefore(all[i], all[i + 1].began) {
      assert i < |trials| - 1 ==> all[i + 1] == trials[i + 1];
    }
  }

  lemma {:induction false} AttemptIsGood(
      world: World, script: nat -> Plan, max: nat, attempt: nat, now: nat, trials: seq<Trial>)
    requires 1 <= attempt <= max && |trials| < attempt && Disciplined(world, trials, now, false)
    ensures Good(world, Attempt(world, script, max, attempt, now, trials), max)
    decreases max - attempt, 1
  {
    hide TrialOf, TrialDone, Concluded;
    var plan := script(attempt);
    LaterStaysDisciplined(world, trials, now, now);
    AllClosed(world, trials, now);
    hide Disciplined;
    if plan.course.NoOwner? {
      RetryIsGood(world, script, max, attempt, now, trials, Why(plan.course), true);
    } else if plan.course != Interrupted(false) {
      var t := TrialOf(world, plan, now);
      TrialConcludes(world, plan, now);
      TrialKeeps(world, trials, t, now);
      if t.closing.Some? && !plan.course.Interrupted? {
        var cleaned := t.closing.value.verdict.ok;
        StaysOpen(world, trials + [t], TrialDone(world, plan, now));
        RetryIsGood(world, script, max, attempt, TrialDone(world, plan, now), trials + [t], Why(plan.course), cleaned);
      }
    }
  }

  lemma StaysOpen(world: World, trials: seq<Trial>, now: nat)
    requires Disciplined(world, trials, 0, true)
    ensures Disciplined(world, trials, now, true)
  {
  }

  lemma AllClosed(world: World, trials: seq<Trial>, now: nat)
    requires Disciplined(world, trials, now, false)
    ensures forall i :: 0 <= i < |trials| ==> trials[i].closing.Some? && trials[i].closing.value.verdict.ok
  {
    forall i | 0 <= i < |trials| ensures trials[i].closing.Some? && trials[i].closing.value.verdict.ok {
      assert i < |trials| - 1 ==> CleanedBefore(trials[i], trials[i + 1].began);
    }
  }

  lemma {:induction false} RetryIsGood(
      world: World, script: nat -> Plan, max: nat, attempt: nat, now: nat, trials: seq<Trial>,
      reason: Reason, cleaned: bool)
    requires 1 <= attempt <= max && |trials| <= attempt
    requires Disciplined(world, trials, now, !cleaned) && Disciplined(world, trials, 0, true)
    requires forall i :: 0 <= i < |trials| ==> trials[i].closing.Some?
    ensures Good(world, Retry(world, script, max, attempt, now, trials, reason, cleaned), max)
    decreases max - attempt, 0
  {
    hide Concluded, Disciplined;
    if cleaned {
      AllClosed(world, trials, now);
    }
    if cleaned && Transient(reason) && attempt < max {
      AttemptIsGood(world, script, max, attempt + 1, now, trials);
    }
  }

  lemma StartIsGood(world: World, script: nat -> Plan, timeout: real, maxAttempts: int, now: nat)
    requires Valid(timeout, maxAttempts)
    ensures Good(world, Start(world, script, timeout, maxAttempts, now), maxAttempts)
  {
    AttemptIsGood(world, script, maxAttempts, 1, now, []);
    hide Attempt, Good;
  }

  /** The startup `s` is that of some world, plans and limits. */
  ghost predicate IsStartup(world: World, s: Startup) {
    exists script: nat -> Plan, timeout, maxAttempts, now :: StartsAs(world, script, timeout, maxAttempts, now, s)
  }

  predicate StartsAs(world: World, script: nat -> Plan, timeout: real, maxAttempts: int, now: nat, s: Startup) {
    Valid(timeout, maxAttempts) && s == Start(world, script, timeout, maxAttempts, now)
  }

  lemma StartupIsGood(world: World, s: Startup) returns (max: nat)
    requires IsStartup(world, s)
    ensures max <= 2 && Good(world, s, max)
  {
    hide Start, Disciplined;
    var script: nat -> Plan, timeout, maxAttempts, now :| StartsAs(world, script, timeout, maxAttempts, now, s);
    StartIsGood(world, script, timeout, maxAttempts, now);
    max := maxAttempts;
  }

  /** What a positive answer of cleanup `c` of browser `k` is worth: it was given without doubt, no
      recorded process was seen live, and the profile is gone. */
  ghost predicate Certified(world: World, k: Key, c: Closing) {
    && !c.book.uncertain
    && (forall j :: 0 <= j < |c.book.known| ==>
          !Alive(world(c.at + j), c.book.known[j]) || c.book.known[j].pid in world(c.at + j).denied)
    && (c.verdict.removed.Some? || k.profile !in world(c.at + |c.book.known|).dirs)
  }

  /** What any cleanup answers, wherever it stands among the cleanups of its browser: doubt that
      it begins with forbids a positive answer and any removal; a positive answer is a fresh one. */
  lemma ContinuingMeans(world: World, t: Trial, b: Book, since: nat, c: Closing)
    requires Continues(world, t, b, since, c)
    ensures since <= c.began <= c.at <= c.verdict.later
    ensures c.verdict.ok ==> Certified(world, t.key, c)
    ensures c.book.uncertain || b.uncertain ==> !c.verdict.ok && c.verdict.removed == None
  {
    hide Conclude, CleanupOf, Alive;
    CleanupTakesTime(world, t.key, t.launched, b, c.began);
    ConcludeMeans(world, t.key, c.book, c.at);
    if b.uncertain {
      DoubtReachesTheSweep(world, t.key, t.launched, b, c.began);
    }
  }

  lemma DoubtReachesTheSweep(world: World, k: Key, launched: bool, b: Book, now: nat)
    requires b.uncertain
    ensures CleanupOf(world, k, launched, b, now).book.uncertain
  {
    hide SweepProcesses, Conclude;
    SweepKeepsDoubt(world, k, b, now);
  }

  /** The trial's own cleanup answered without regard to its place. */
  lemma OwnCleanupMeans(world: World, t: Trial)
    requires Concluded(world, t) && t.closing.Some?
    ensures var c := t.closing.value;
      && t.began <= c.began <= c.at <= c.verdict.later
      && (c.verdict.ok ==> Certified(world, t.key, c)) && (c.book.uncertain ==> !c.verdict.ok)
  {
    hide Continues, Certified;
    if t.early.Some? {
      ContinuingMeans(world, t, t.book, t.began, t.early.value);
      ContinuingMeans(world, t, t.early.value.verdict.book, t.early.value.verdict.later, t.closing.value);
    } else {
      ContinuingMeans(world, t, t.book, t.began, t.closing.value);
    }
  }

  /** Whatever was launched, when the next attempt begins the own cleanup of the one before has
      answered true without doubt - whether or not its attach thread came first or is still to
      come: no recorded process was seen live, and its profile is gone. */
  lemma FurtherLaunchNeedsCleanup(world: World, s: Startup, i: nat)
    requires IsStartup(world, s) && i + 1 < |s.trials|
    ensures var t, next := s.trials[i], s.trials[i + 1];
      && t.closing.Some? && t.closing.value.verdict.ok && Certified(world, t.key, t.closing.value)
      && t.began <= t.closing.value.at <= t.closing.value.verdict.later <= next.began
  {
    hide IsStartup, OutcomeFits, Concluded, Certified;
    var max := StartupIsGood(world, s);
    assert CleanedBefore(s.trials[i], s.trials[i + 1].began);
    OwnCleanupMeans(world, s.trials[i]);
  }

  /** Doubt that the sweep ends with stops the retries, and so does doubt raised earlier. */
  lemma DoubtEndsTheRun(world: World, s: Startup, i: nat)
    requires IsStartup(world, s) && i < |s.trials|
    requires s.trials[i].closing.Some? && s.trials[i].closing.value.book.uncertain
    ensures i == |s.trials| - 1 && !s.outcome.Page? && (s.outcome.Failed? ==> !s.outcome.retryable)
  {
    hide IsStartup, Concluded, Certified;
    var max := StartupIsGood(world, s);
    OwnCleanupMeans(world, s.trials[i]);
    assert i + 1 < |s.trials| ==> CleanedBefore(s.trials[i], s.trials[i + 1].began);
  }

  /** The trial's own cleanup answered true. */
  predicate AnsweredTrue(t: Trial) { t.closing.Some? && t.closing.value.verdict.ok }

  /** At most one owned browser is left uncleaned on return: all but the last answered true. */
  lemma AtMostOneIsLeft(world: World, s: Startup, i: nat, j: nat)
    requires IsStartup(world, s) && i < |s.trials| && j < |s.trials|
    requires !AnsweredTrue(s.trials[i]) && !AnsweredTrue(s.trials[j])
    ensures i == j && |s.trials| <= 2
  {
    hide IsStartup, Concluded;
    var max := StartupIsGood(world, s);
    assert i < |s.trials| - 1 ==> CleanedBefore(s.trials[i], s.trials[i + 1].began);
    assert j < |s.trials| - 1 ==> CleanedBefore(s.trials[j], s.trials[j + 1].began);
  }

  /** The attach thread of a timed-out attempt, whenever it wakes.  If it gets the lock first, the
      doubt it finds makes it answer false and remove nothing, the doubt it leaves does the same to
      the attempt's own cleanup, and that begins only when it has ended.  If it comes after the own
      cleanup, the doubt that one left - its last look included - does the same to it.  A positive
      answer of either is worth as much as any. */
  lemma LateAnswers(world: World, s: Startup, i: nat)
    requires IsStartup(world, s) && i < |s.trials|
    ensures var t := s.trials[i];
      && (t.early.Some? ==>
            var e := t.early.value;
            && t.timedOut && t.closing.Some? && t.began <= e.began && e.verdict.later <= t.closing.value.began
            && (e.verdict.ok ==> Certified(world, t.key, e))
            && (t.book.uncertain ==> !e.verdict.ok && e.verdict.removed == None)
            && (e.verdict.book.uncertain ==> !AnsweredTrue(t) && t.closing.value.verdict.removed == None))
      && (t.late.Some? ==>
            var l := t.late.value;
            && t.timedOut && t.closing.Some? && t.closing.value.verdict.later <= l.began
            && (l.verdict.ok ==> Certified(world, t.key, l))
            && (t.closing.value.verdict.book.uncertain ==> !l.verdict.ok && l.verdict.removed == None))
  {
    hide IsStartup, OutcomeFits, Continues, Certified;
    var max := StartupIsGood(world, s);
    var t := s.trials[i];
    assert Concluded(world, t);
    if t.early.Some? {
      ContinuingMeans(world, t, t.book, t.began, t.early.value);
      ContinuingMeans(world, t, t.early.value.verdict.book, t.early.value.verdict.later, t.closing.value);
    }
    if t.late.Some? {
      ContinuingMeans(world, t, t.closing.value.verdict.book, t.closing.value.verdict.later, t.late.value);
    }
  }

  // ---- what an attempt records while it waits ---------------------------------------------------------------

  /** One look for the listener records what a look at the family records, and doubts when that
      does or when somebody recorded refuses to be inspected. */
  lemma WatchingRecords(world: World, k: Key, b: Book, now: nat)
    ensures Watch(world, k, b, now).known == Capture(world, k, b, now).known
    ensures Watch(world, k, b, now).uncertain <==>
      b.uncertain || !Accounted(world, k, b.known, now) || Refuses(world, Capture(world, k, b, now).known, now + 2)
  {
    hide Capture, Accounted;
    CaptureDoubtsExactly(world, k, b, now);
    var known := Capture(world, k, b, now).known;
    NobodyRefused(world, known, now + 2, |known|);
  }

  lemma {:induction false} WatchingForgetsNothing(world: World, k: Key, b: Book, now: nat, n: nat, id: Ident)
    ensures b.uncertain ==> Watched(world, k, b, now, n).0.uncertain
    ensures id in b.known ==> id in Watched(world, k, b, now, n).0.known
    decreases n
  {
    hide Capture, LiveRefused;
    if n > 0 {
      if b.uncertain {
        CaptureKeepsDoubt(world, k, b, now);
      }
      if id in b.known {
        CaptureGrows(world, k, b, now, id);
      }
      WatchingForgetsNothing(world, k, Watch(world, k, b, now), WatchDone(world, k, b, now), n - 1, id);
    }
  }

  /** Whatever was recorded or doubted right after the launch is still recorded or doubted when the
      attempt ends, however often it has looked for its listener. */
  lemma LaunchIsRemembered(world: World, plan: Plan, now: nat, id: Ident)
    requires !plan.course.NotLaunched?
    ensures var atLaunch, atEnd := Capture(world, plan.key, Book([], false), now), Tried(world, plan, now).0;
      (atLaunch.uncertain ==> atEnd.uncertain) && (id in atLaunch.known ==> id in atEnd.known)
  {
    hide Capture, Watched;
    WatchingForgetsNothing(world, plan.key, Capture(world, plan.key, Blank(), now), now + 2, plan.polls, id);
  }

  // ---- when an attempt is retried ------------------------------------------------------------------------------

  /** The first attempt ends the startup by itself. */
  predicate Settles(course: Course) { course.Attaches? || course.Interrupted? }

  /** What the first attempt's failure is called. */
  predicate FailsWith(course: Course, reason: Reason) {
    match course
    case NoOwner(why) => why == reason
    case NotLaunched(why) => why == reason
    case Fails(why) => why == reason
    case TimesOut => reason == BrowserAttachTimeout
    case _ => false
  }

  /** The four failures of a blank browser that a second try may cure. */
  predicate MayPass(reason: Reason) {
    reason in {ProcessExited, CdpNotReady, BrowserAttachTimeout, BrowserConnectError}
  }

  /** A first attempt that failed for `reason` is retried exactly when two attempts are allowed, the
      failure is one that may pass, and whatever was owned is cleaned up; otherwise the startup
      fails at once with that reason, and says truthfully whether trying again makes sense.  An
      attempt that attaches or is interrupted is never retried. */
  lemma RetriedExactly(
      world: World, script: nat -> Plan, timeout: real, maxAttempts: int, now: nat, reason: Reason)
    requires 0.0 < timeout <= 60.0 && 1 <= maxAttempts <= 2 && FailsWith(script(1).course, reason)
    ensures var s := Start(world, script, timeout, maxAttempts, now);
      var trials := if script(1).course.NoOwner? then [] else [TrialOf(world, script(1), now)];
      var cleaned := script(1).course.NoOwner? || AnsweredTrue(trials[0]);
      var again := MayPass(reason) && cleaned;
      if maxAttempts == 2 && again
      then exists later :: later >= now && s == Attempt(world, script, 2, 2, later, trials)
      else s == Startup(Failed(reason, 1, again), trials)
  {
    hide TrialOf, TrialDone, Start, Attempt, Retry;
    var plan := script(1);
    TrialConcludes(world, plan, now);
    StartUnfolds(world, script, timeout, maxAttempts, now);
    Unfold(world, script, maxAttempts, 1, now, []);
    var trial := TrialOf(world, plan, now);
    assert [] + [trial] == [trial];
    var none := plan.course.NoOwner?;
    var trials, later := if none then [] else [trial], if none then now else TrialDone(world, plan, now);
    var cleaned := none || AnsweredTrue(trial);
    UnfoldRetry(world, script, maxAttempts, 1, later, trials, reason, cleaned);
    hide Concluded;
  }

  lemma SettledAtOnce(world: World, script: nat -> Plan, timeout: real, maxAttempts: int, now: nat)
    requires 0.0 < timeout <= 60.0 && 1 <= maxAttempts <= 2 && Settles(script(1).course)
    ensures var s := Start(world, script, timeout, maxAttempts, now);
      && s.outcome == (if script(1).course.Attaches? then Page else Aborted)
      && s.trials == if script(1).course == Interrupted(false) then [] else [TrialOf(world, script(1), now)]
  {
    hide TrialOf, TrialDone, Start, Attempt, Retry;
    TrialConcludes(world, script(1), now);
    StartUnfolds(world, script, timeout, maxAttempts, now);
    Unfold(world, script, maxAttempts, 1, now, []);
    assert [] + [TrialOf(world, script(1), now)] == [TrialOf(world, script(1), now)];
    hide Concluded;
  }

  /** A failed attempt after which everything has ended and the profile lies where launch put it is
      cleaned up: by the theorem above it is retried if its failure may pass. */
  lemma QuietTrialIsCleaned(world: World, plan: Plan, now: nat, node: Node)
    requires plan.course.NotLaunched? || plan.course.Fails? || (plan.course.TimesOut? && !plan.wake.First?)
    requires !Tried(world, plan, now).0.uncertain && Quiet(world, plan.key, Tried(world, plan, now).1, node)
    ensures var t := TrialOf(world, plan, now); AnsweredTrue(t) && t.closing.value.verdict.removed == Some(node)
  {
    hide Tried, Conclude, SweepProcesses, Quiet, CreatedAtLaunch;
    var (book, at) := Tried(world, plan, now);
    if plan.course.NotLaunched? {
      QuietConclusion(world, plan.key, book, at, at, node);
    } else {
      QuietCleanupSucceeds(world, plan.key, book, at, node);
    }
  }

  /** Anything else than a budget of at most a minute and one or two attempts is refused, and
      nothing is launched. */
  lemma RefusedExactly(world: World, script: nat -> Plan, timeout: real, maxAttempts: int, now: nat)
    ensures Start(world, script, timeout, maxAttempts, now).outcome == InvalidArguments <==>
      timeout <= 0.0 || timeout > 60.0 || maxAttempts < 1 || maxAttempts > 2
    ensures Start(world, script, timeout, maxAttempts, now).outcome == InvalidArguments ==>
      Start(world, script, timeout, maxAttempts, now).trials == []
  {
    if Valid(timeout, maxAttempts) {
      NeverInvalid(world, script, maxAttempts, 1, now, []);
    }
    hide Attempt;
  }

  lemma {:induction false} NeverInvalid(
      world: World, script: nat -> Plan, max: nat, attempt: nat, now: nat, trials: seq<Trial>)
    requires 1 <= attempt <= max
    ensures Attempt(world, script, max, attempt, now, trials).outcome != InvalidArguments
    decreases max - attempt
  {
    hide TrialOf, TrialDone;
    var plan := script(attempt);
    if attempt < max {
      NeverInvalid(world, script, max, attempt + 1, now, trials);
      var trial := TrialOf(world, plan, now);
      NeverInvalid(world, script, max, attempt + 1, TrialDone(world, plan, now), trials + [trial]);
    }
  }

  // ---- a further launch in doubt ----------------------------------------------------------------------------

  /** The first attempt is launched and fails to become ready, the second succeeds. */
  function TwoAttempts(first: Key, second: Key): nat -> Plan {
    i => Plan(if i == 1 then Fails(CdpNotReady) else Attaches, if i == 1 then first else second, 0, Never)
  }

  lemma FirstTrialInDoubt(second: Key)
    ensures var t := TrialOf(LateChild(7), TwoAttempts(ChildKey(), second)(1), 0);
      t.closing == Some(Closing(2, Book([Who(Child())], false), 9, Verdict(true, Book([Who(Child())], true), None, 11)))
  {
    NobodyThereYet(7, 0, 5);
    assert Capture(LateChild(7), ChildKey(), Blank(), 0) == Blank();
    SweepFindsLateChild(2);
    PositiveAnswerMayDoubt(2);
    hide Capture, SweepProcesses, Conclude, LateChild;
  }

  /** What the gap in `cleanup` means for a retry: a second browser is launched although a
      child of the first is alive and the first owner's doubt flag is up. */
  lemma RetryWithTheChildAlive(second: Key)
    ensures var world := LateChild(7);
      var s := Start(world, TwoAttempts(ChildKey(), second), 25.0, 2, 0);
      && s.outcome == Page && |s.trials| == 2 && s.trials[0].closing.Some?
      && s.trials[0].closing.value.verdict.ok && s.trials[0].closing.value.verdict.book.uncertain
      && Who(Child()) in s.trials[0].closing.value.book.known
      && (forall t: nat :: t >= s.trials[1].began ==> Alive(world(t), Who(Child())))
  {
    hide TrialOf, TrialDone, Conclude, SweepProcesses, LateChild, Attempt, Alive, Honest, Child, ChildKey;
    var world, script := LateChild(7), TwoAttempts(ChildKey(), second);
    FirstTrialInDoubt(second);
    PositiveAnswerMayDoubt(2);
    var t1, t2 := TrialOf(world, script(1), 0), TrialOf(world, script(2), 11);
    TrialConcludes(world, script(1), 0);
    TrialConcludes(world, script(2), 11);
    hide Concluded;
    SecondAttemptAttaches(world, script, t1, t2);
  }

  /** A first attempt that fails for a moment and answers true, and a second that attaches. */
  lemma SecondAttemptAttaches(world: World, script: nat -> Plan, t1: Trial, t2: Trial)
    requires script(1).course == Fails(CdpNotReady) && script(2).course == Attaches
    requires t1 == TrialOf(world, script(1), 0) && TrialDone(world, script(1), 0) == 11
    requires t2 == TrialOf(world, script(2), 11) && t2.closing.None?
    requires t1.closing.Some? && t1.closing.value.verdict.ok
    ensures Start(world, script, 25.0, 2, 0) == Startup(Page, [t1, t2])
  {
    hide TrialOf, TrialDone, Start, Attempt, Retry;
    StartUnfolds(world, script, 25.0, 2, 0);
    Unfold(world, script, 2, 1, 0, []);
    assert [] + [t1] == [t1] && [t1] + [t2] == [t1, t2];
    UnfoldRetry(world, script, 2, 1, 11, [t1], CdpNotReady, true);
    Unfold(world, script, 2, 2, 11, [t1]);
  }
}
