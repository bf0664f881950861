/** The owner object and the bounded startup retry (core/browser_startup.py, `_OwnedBrowser`
    and `start_local_browser`), updated in place. */
module BrowserStartup {
  import opened Basics
  import opened ProcessWorld
  import opened BrowserCleanup
  import opened StartupSpec

  class OwnedBrowser {
    const world: World
    var key: Key
    var launched: bool
    var known: seq<Ident>
    var uncertain: bool
    // Everything this owner ever did to the world, for the record.
    var signals: seq<Signal>
    var removed: seq<Node>

    function Notes(): Book
      reads this
    {
      Book(known, uncertain)
    }

    /** Whatever has been recorded, signalled or removed is this launch's own. */
    ghost predicate Sound(lineage: Lineage)
      reads this
    {
      && (!launched ==> known == [] && signals == [])
      && AllOwned(world, lineage, key, known)
      && Safe(world, lineage, key, signals)
      && forall i :: 0 <= i < |removed| ==> OwnDirectory(key, removed[i])
    }

    /** This is the browser of trial `t`, and it did nothing outside its own. */
    ghost predicate Belongs(t: Trial, lineage: Lineage)
      reads this
    {
      Sound(lineage) && key == t.key && launched == t.launched
    }

    /** The profile directory and port have been created; nothing runs yet. */
    constructor (world: World, key: Key)
      ensures this.world == world && this.key == key && !launched
      ensures known == [] && !uncertain && signals == [] && removed == []
    {
      this.world, this.key := world, key;
      launched, known, uncertain, signals, removed := false, [], false, [], [];
    }

    method CaptureFamily(now: nat)
      modifies this`known, this`uncertain
      ensures Notes() == if launched then Capture(world, key, old(Notes()), now) else old(Notes())
    {
      hide Find, Children, BirthOf, Record, MatchesProfile, AnyDenied;
      if !launched {
        return;
      }
      match Observe(world(now), key.root.pid)
      case Gone =>
      case Denied => uncertain := true;
      case Seen(root) =>
        var recorded := BirthOf(known, root.pid);
        if recorded.Some? && recorded.value != root.birth {
          return; // the original process is gone and its id was reused
        }
        if MatchesProfile(key, root) && key.port in root.ports {
          known := Record(known, Who(root));
          match Observe(world(now + 1), root.pid)
          case Gone =>
          case Denied => uncertain := true;
          case Seen(again) =>
            if again.birth == root.birth {
              var children := Children(world(now + 1).procs, again, |world(now + 1).procs|);
              if AnyDenied(world(now + 1), children) {
                uncertain := true;
              } else {
                ghost var before := known;
                for i := 0 to |children|
                  invariant known == RecordAll(before, children[..i])
                  invariant uncertain == old(uncertain)
                {
                  assert children[..i + 1][..i] == children[..i];
                  known := Record(known, children[i]);
                }
                assert children[..|children|] == children;
              }
            }
        } else if Alive(world(now + 1), key.root) {
          uncertain := true;
        }
    }

    method Live(now: nat) returns (live: seq<Ident>)
      modifies this`uncertain
      ensures live == LiveOf(world, known, now, |known|)
      ensures uncertain == (old(uncertain) || LiveRefused(world, known, now, |known|))
    {
      live := [];
      for i := 0 to |known|
        invariant live == LiveOf(world, known, now, i)
        invariant uncertain == (old(uncertain) || LiveRefused(world, known, now, i))
      {
        match Observe(world(now + i), known[i].pid)
        case Gone =>
        case Denied => uncertain := true;
        case Seen(p) =>
          if p.birth == known[i].birth && !p.zombie {
            live := live + [known[i]];
          }
      }
    }

    /** `owns_listener`, as far as the book is concerned. */
    method WatchListener(now: nat) returns (later: nat)
      requires launched
      modifies this`known, this`uncertain
      ensures Notes() == Watch(world, key, old(Notes()), now) && later == WatchDone(world, key, old(Notes()), now)
    {
      hide Capture, LiveOf, LiveRefused;
      CaptureFamily(now);
      var _ := Live(now + 2);
      later := now + 2 + |known|;
    }

    method FindProfileOrphans(now: nat)
      modifies this`known
      ensures known == FindOrphans(world, key, old(known), now)
    {
      var listing := world(now).procs;
      for i := 0 to |listing|
        invariant known == Orphans(world, key, old(known), listing, now + 1, i)
      {
        match Observe(world(now + 1 + i), listing[i].pid)
        case Seen(p) =>
          if MatchesProfile(key, p) {
            known := Record(known, Who(p));
          }
        case _ =>
      }
    }

    /** One pass of identity-checked signals. */
    method SignalEach(kind: SignalKind, targets: seq<Ident>, now: nat)
      modifies this`signals, this`uncertain
      ensures signals == old(signals) + Signalled(world, kind, targets, now, |targets|)
      ensures uncertain == (old(uncertain) || LiveRefused(world, targets, now, |targets|))
    {
      for i := 0 to |targets|
        invariant signals == old(signals) + Signalled(world, kind, targets, now, i)
        invariant uncertain == (old(uncertain) || LiveRefused(world, targets, now, i))
      {
        match Observe(world(now + i), targets[i].pid)
        case Gone =>
        case Denied => uncertain := true;
        case Seen(p) =>
          if p.birth == targets[i].birth {
            signals := signals + [Signal(kind, targets[i], now + i)];
          }
      }
    }

    method SignalLive(now: nat) returns (at: nat)
      modifies this`uncertain, this`signals
      ensures var hit := SignalAll(world, known, now);
              signals == old(signals) + hit.asked + hit.killed && at == hit.at
      ensures uncertain == (old(uncertain) || SignalAllRefused(world, known, now))
    {
      hide LiveOf, LiveRefused, Signalled, StillAlive;
      var live := Live(now);
      SignalEach(Terminate, live, now + |known|);
      var t2 := now + |known| + |live|;
      var remaining := StillAlive(world(t2), live);
      SignalEach(Kill, remaining, t2 + 1);
      at := t2 + 1 + |remaining|;
    }

    /** The signalling half of cleanup, for a launched browser. */
    method Sweep(now: nat) returns (at: nat)
      requires launched
      modifies this`known, this`uncertain, this`signals
      ensures var w := SweepProcesses(world, key, old(Notes()), now);
              Notes() == w.book && signals == old(signals) + w.asked + w.killed && at == w.at
    {
      hide Capture, Orphans, SignalAll, SignalAllRefused, Find;
      CaptureFamily(now);
      FindProfileOrphans(now + 2);
      var exitAt := SignalLive(OrphansDone(world, now + 2));
      if Alive(world(exitAt), key.root) {
        uncertain := true;
      }
      FindProfileOrphans(exitAt + 1);
      at := OrphansDone(world, exitAt + 1);
    }

    /** `cleanup`: what it answers and does is `Conclude` after the sweep. */
    method Cleanup(now: nat, ghost lineage: Lineage) returns (ok: bool, later: nat)
      requires Honest(world, lineage) && Sound(lineage)
      modifies this`known, this`uncertain, this`signals, this`removed
      ensures Sound(lineage)
      ensures var w := SweepProcesses(world, key, old(Notes()), now);
              var v := if launched then Conclude(world, key, w.book, w.at) else Conclude(world, key, old(Notes()), now);
              && ok == v.ok && Notes() == v.book && later == v.later
              && signals == old(signals) + (if launched then w.asked + w.killed else [])
              && removed == old(removed) + (if v.removed.Some? then [v.removed.value] else [])
      ensures old(uncertain) ==> !ok && uncertain
    {
      hide SweepProcesses, LiveOf, LiveRefused, Owned, HitsItsTarget;
      var at := now;
      if launched {
        SweepIsSafe(world, lineage, key, Notes(), now);
        SweepKeepsBook(world, lineage, key, Notes(), now);
        if uncertain {
          SweepKeepsDoubt(world, key, Notes(), now);
        }
        at := Sweep(now);
      }
      assert AllOwned(world, lineage, key, known);
      assert Safe(world, lineage, key, signals);
      if uncertain {
        return false, at;
      }
      var live := Live(at);
      later := at + |known|;
      if live != [] {
        return false, later;
      }
      if key.profile !in world(later).dirs {
        return true, later + 1;
      }
      var node := world(later).dirs[key.profile];
      if !OwnDirectory(key, node) || key.profile !in world(later).removable {
        return false, later + 1;
      }
      removed := removed + [node];
      ok, later := true, later + 1;
    }
  }

  // ---- startup -------------------------------------------------------------------------------

  lemma WatchOwned(world: World, lineage: Lineage, k: Key, b: Book, now: nat)
    requires Honest(world, lineage) && AllOwned(world, lineage, k, b.known)
    ensures AllOwned(world, lineage, k, Watch(world, k, b, now).known)
  {
    hide AllOwned, Capture, LiveRefused;
    CaptureOwned(world, lineage, k, b, now);
  }

  /** One attempt that gets as far as owning a profile: launch, record the family, watch for
      the listener, and unless the page attached, clean up.  The attach thread of an attempt that
      timed out cleans up too, before that or at some time after it; the owner's lock keeps the
      two apart, and nobody waits for the thread: `later` is when the own cleanup has ended. */
  method TryOnce(world: World, plan: Plan, now: nat, ghost lineage: Lineage)
    returns (owner: OwnedBrowser, cleaned: bool, later: nat, ghost trial: Trial)
    requires Honest(world, lineage)
    ensures fresh(owner) && owner.world == world && owner.Belongs(trial, lineage)
    ensures trial == TrialOf(world, plan, now) && later == TrialDone(world, plan, now)
    ensures trial.closing.Some? ==> cleaned == trial.closing.value.verdict.ok
    ensures trial.closing.Some? ==>
      owner.Notes() == (if trial.late.Some? then trial.late else trial.closing).value.verdict.book
  {
    hide Capture, AllOwned, Safe, CleanupOf, FindOrphans, LiveRefused, LiveOf;
    owner := new OwnedBrowser(world, plan.key);
    NothingOwned(world, lineage, plan.key);
    var at: nat := now;
    if !plan.course.NotLaunched? {
      CaptureOwned(world, lineage, plan.key, Blank(), now);
      owner.launched := true;
      owner.CaptureFamily(now);
      at := now + 2;
      for i := 0 to plan.polls
        invariant owner.launched && owner.key == plan.key && owner.signals == [] && owner.removed == []
        invariant AllOwned(world, lineage, plan.key, owner.known)
        invariant Watched(world, plan.key, Capture(world, plan.key, Blank(), now), now + 2, plan.polls)
               == Watched(world, plan.key, owner.Notes(), at, plan.polls - i)
      {
        WatchOwned(world, lineage, plan.key, owner.Notes(), at);
        at := owner.WatchListener(at);
      }
    }
    ghost var book := owner.Notes();
    assert (book, at) == Tried(world, plan, now);
    assert owner.Sound(lineage);
    cleaned, later := false, at;
    ghost var early, closing, late := None, None, None;
    if !plan.course.Attaches? {
      cleaned, later, early, closing, late := CleanUpBoth(owner, plan, at, lineage);
    }
    trial := Trial(plan.key, now, owner.launched, plan.course.TimesOut?, book, early, closing, late);
  }

  /** The cleanups of an attempt that failed. */
  method CleanUpBoth(owner: OwnedBrowser, plan: Plan, at: nat, ghost lineage: Lineage)
    returns (cleaned: bool, later: nat, ghost early: Option<Closing>, ghost own: Option<Closing>,
             ghost late: Option<Closing>)
    requires Honest(owner.world, lineage) && owner.Sound(lineage)
    requires owner.key == plan.key && owner.launched == !plan.course.NotLaunched?
    modifies owner`known, owner`uncertain, owner`signals, owner`removed
    ensures owner.Sound(lineage) && own.Some?
    ensures own.value == Own(owner.world, plan, old(owner.Notes()), at)
    ensures early == Early(owner.world, plan, old(owner.Notes()), at) && late == Late(owner.world, plan, own.value)
    ensures cleaned == own.value.verdict.ok && later == own.value.verdict.later
    ensures owner.Notes() == (if late.Some? then late else own).value.verdict.book
  {
    hide CleanupOf, OwnedBrowser.Sound;
    early, late := None, None;
    later := at;
    if plan.course.TimesOut? && plan.wake.First? {
      early := Some(CleanupOf(owner.world, owner.key, true, owner.Notes(), at + plan.wake.delay));
      var _, done := CleanUp(owner, at + plan.wake.delay, lineage);
      later := done;
    }
    own := Some(CleanupOf(owner.world, owner.key, owner.launched, owner.Notes(), later));
    cleaned, later := CleanUp(owner, later, lineage);
    if plan.course.TimesOut? && plan.wake.Afterwards? {
      late := Some(CleanupOf(owner.world, owner.key, true, owner.Notes(), later + plan.wake.delay));
      var _, _ := CleanUp(owner, later + plan.wake.delay, lineage);
    }
  }

  /** One cleanup of an owner, by the attempt itself or by its attach thread. */
  method CleanUp(owner: OwnedBrowser, now: nat, ghost lineage: Lineage) returns (ok: bool, later: nat)
    requires Honest(owner.world, lineage) && owner.Sound(lineage)
    modifies owner`known, owner`uncertain, owner`signals, owner`removed
    ensures owner.Sound(lineage)
    ensures var c := CleanupOf(owner.world, owner.key, owner.launched, old(owner.Notes()), now);
      ok == c.verdict.ok && later == c.verdict.later && owner.Notes() == c.verdict.book
  {
    hide SweepProcesses, Conclude, OwnedBrowser.Sound;
    ok, later := owner.Cleanup(now, lineage);
  }

  lemma NothingOwned(world: World, lineage: Lineage, k: Key)
    ensures AllOwned(world, lineage, k, []) && Safe(world, lineage, k, [])
  {
  }

  /** Startup with at most `maxAttempts` tries: outcome and trials are those of `Start`.  `owners`
      are the browsers of the trials, oldest first; whatever any of them signalled or removed was
      its own. */
  method StartLocalBrowser(
      world: World, script: nat -> Plan, timeout: real, maxAttempts: int, start: nat, ghost lineage: Lineage)
    returns (outcome: Outcome, owners: seq<OwnedBrowser>, ghost trials: seq<Trial>)
    requires Honest(world, lineage)
    ensures Startup(outcome, trials) == Start(world, script, timeout, maxAttempts, start)
    ensures |owners| == |trials|
    ensures forall i :: 0 <= i < |owners| ==>
      fresh(owners[i]) && owners[i].world == world && owners[i].Belongs(trials[i], lineage)
  {
    hide OwnedBrowser.Belongs, OwnedBrowser.Notes, Start, Attempt, Retry, Why, TrialOf, TrialDone, CleanupOf;
    hide Capture, SweepProcesses, AllOwned, Safe, Conclude, OwnDirectory, Honest;
    owners, trials := [], [];
    StartUnfolds(world, script, timeout, maxAttempts, start);
    if !Valid(timeout, maxAttempts) {
      return InvalidArguments, owners, trials;
    }
    var now: nat := start;
    var attempt := 1;
    while true
      invariant 1 <= attempt <= maxAttempts
      invariant |owners| == |trials|
      invariant forall i :: 0 <= i < |owners| ==>
        fresh(owners[i]) && owners[i].world == world && owners[i].Belongs(trials[i], lineage)
      invariant Start(world, script, timeout, maxAttempts, start)
             == Attempt(world, script, maxAttempts, attempt, now, trials)
      decreases maxAttempts - attempt
    {
      var plan := script(attempt);
      Unfold(world, script, maxAttempts, attempt, now, trials);
      if plan.course == Interrupted(false) {
        return Aborted, owners, trials;
      }
      var cleaned := true;
      if !plan.course.NoOwner? {
        TrialConcludes(world, plan, now);
        ghost var trial;
        var owner;
        owner, cleaned, now, trial := TryOnce(world, plan, now, lineage);
        owners := owners + [owner];
        trials := trials + [trial];
        if plan.course.Attaches? {
          return Page, owners, trials;
        }
        if plan.course.Interrupted? {
          return Aborted, owners, trials;
        }
      }
      assert Start(world, script, timeout, maxAttempts, start)
          == Retry(world, script, maxAttempts, attempt, now, trials, Why(plan.course), cleaned);
      UnfoldRetry(world, script, maxAttempts, attempt, now, trials, Why(plan.course), cleaned);
      var retryable := cleaned && Transient(Why(plan.course));
      if !retryable || attempt == maxAttempts {
        return Failed(Why(plan.course), attempt, retryable), owners, trials;
      }
      attempt := attempt + 1;
    }
  }
}
