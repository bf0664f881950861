/** What the billing pause and the seat room mean when computations and invitations overlap
    (api/business_masters.py). */
module InvitePauses {
  import opened Basics
  import opened SeatCapacity
  import opened AdmissionGuard
  import opened InviteRuns

  // ---- where pauses come from ---------------------------------------------------------------------

  /** Event `d` is a computation for master `m` that saw an overflow, read no active pause, and
      works out a pause that ends at `u`. */
  ghost predicate StartsAt(r: Rules, s: State, run: seq<Event>, d: nat, m: nat, u: int)
    requires Legal(r, s, run)
  {
    d < |run| && run[d].Read? &&
    var t, e := Then(r, s, run, d), run[d];
    InFlight(t, e.i) && t.calls[e.i].master == m && Overflow(r, t.rows[m].planSeats, e.x)
    && !Active(t.rows[m].pausedUntil, e.now) && u == e.now + 3600 * Max(1, e.hours)
  }

  ghost predicate HasOrigin(r: Rules, s: State, run: seq<Event>, m: nat, u: int)
    requires Legal(r, s, run) && m in s.rows
  {
    s.rows[m].pausedUntil == Some(u) || exists d: nat :: StartsAt(r, s, run, d, m, u)
  }

  lemma OriginStays(r: Rules, s: State, run: seq<Event>, m: nat, u: int)
    requires Legal(r, s, run) && |run| > 0 && m in s.rows && HasOrigin(r, s, run[..|run| - 1], m, u)
    ensures HasOrigin(r, s, run, m, u)
  {
    hide Step, Enabled, Overflow;
    var init := run[..|run| - 1];
    if s.rows[m].pausedUntil != Some(u) {
      var d: nat :| StartsAt(r, s, init, d, m, u);
      assert init[..d] == run[..d] && init[d] == run[d];
      assert Then(r, s, init, d) == Then(r, s, run, d);
      assert StartsAt(r, s, run, d, m, u);
    }
  }

  /** The pauses in the rows, and those that calls are about to store. */
  ghost predicate Explained(r: Rules, s: State, run: seq<Event>, t: State)
    requires Legal(r, s, run)
  {
    && t.rows.Keys == s.rows.Keys
    && (forall m :: m in s.rows && t.rows[m].pausedUntil.Some? ==> HasOrigin(r, s, run, m, t.rows[m].pausedUntil.value))
    && (forall i :: 0 <= i < |t.calls| && t.calls[i].phase.Counted? && t.calls[i].phase.c.next.Some? ==>
          t.calls[i].master in s.rows && HasOrigin(r, s, run, t.calls[i].master, t.calls[i].phase.c.next.value))
  }

  lemma ReadExplains(r: Rules, s: State, run: seq<Event>, t: State, e: Event)
    requires Legal(r, s, run) && |run| > 0 && e == run[|run| - 1] && t == After(r, s, run[..|run| - 1])
    requires e.Read? && Enabled(t, e) && t.rows.Keys == s.rows.Keys
    requires forall m :: m in s.rows && t.rows[m].pausedUntil.Some? ==>
      HasOrigin(r, s, run, m, t.rows[m].pausedUntil.value)
    ensures var c := Count(r, t, e.i, e.now, e.hours, e.x);
      c.next.Some? ==> HasOrigin(r, s, run, t.calls[e.i].master, c.next.value)
  {
    hide Step, Overflow, Room;
    var m, c := t.calls[e.i].master, Count(r, t, e.i, e.now, e.hours, e.x);
    assert m in t.rows.Keys;
    assert Then(r, s, run, |run| - 1) == t;
    if c.next.Some? && !Active(t.rows[m].pausedUntil, e.now) {
      assert StartsAt(r, s, run, |run| - 1, m, c.next.value);
    }
  }

  lemma StepExplains(r: Rules, s: State, run: seq<Event>, t: State, e: Event)
    requires Legal(r, s, run) && |run| > 0 && e == run[|run| - 1] && t == After(r, s, run[..|run| - 1])
    requires Enabled(t, e) && Explained(r, s, run, t)
    ensures Explained(r, s, run, Step(r, t, e))
  {
    hide HasOrigin, Compute, Decide, Wanted, Pool, InvitedIds, Mark, Unassign, FirstPhase;
    if e.Read? {
      ReadExplains(r, s, run, t, e);
    }
    NewCallIsNotCounted(t, e);
  }

  lemma NewCallIsNotCounted(s: State, e: Event)
    ensures e.Begin? ==> !FirstPhase(s, e.master, e.request).Counted?
  {
  }

  lemma ExplainedLater(r: Rules, s: State, run: seq<Event>, t: State)
    requires Legal(r, s, run) && |run| > 0 && Explained(r, s, run[..|run| - 1], t)
    ensures Explained(r, s, run, t)
  {
    hide Step, Enabled, HasOrigin;
    var init := run[..|run| - 1];
    forall m | m in s.rows && t.rows[m].pausedUntil.Some? ensures HasOrigin(r, s, run, m, t.rows[m].pausedUntil.value) {
      OriginStays(r, s, run, m, t.rows[m].pausedUntil.value);
    }
    forall i | 0 <= i < |t.calls| && t.calls[i].phase.Counted? && t.calls[i].phase.c.next.Some?
      ensures t.calls[i].master in s.rows && HasOrigin(r, s, run, t.calls[i].master, t.calls[i].phase.c.next.value)
    {
      OriginStays(r, s, run, t.calls[i].master, t.calls[i].phase.c.next.value);
    }
  }

  lemma {:induction false} AllExplained(r: Rules, s: State, run: seq<Event>)
    requires Legal(r, s, run) && s.calls == []
    ensures Explained(r, s, run, After(r, s, run))
  {
    hide Step, Enabled, Explained, HasOrigin;
    if |run| > 0 {
      AllExplained(r, s, run[..|run| - 1]);
      ExplainedLater(r, s, run, After(r, s, run[..|run| - 1]));
      StepExplains(r, s, run, After(r, s, run[..|run| - 1]), run[|run| - 1]);
    } else {
      ExplainedAtStart(r, s);
    }
  }

  lemma ExplainedAtStart(r: Rules, s: State)
    requires s.calls == []
    ensures Explained(r, s, [], s)
  {
  }

  /** Every stored pause was there at the start or was worked out by a computation that saw an
      overflow and read no active pause, however computations overlap. */
  lemma PausesComeFromOverflow(r: Rules, s: State, run: seq<Event>, m: nat, u: int)
    requires Legal(r, s, run) && s.calls == [] && m in s.rows
    ensures m in After(r, s, run).rows
    ensures After(r, s, run).rows[m].pausedUntil == Some(u) ==>
      s.rows[m].pausedUntil == Some(u) || exists d: nat :: StartsAt(r, s, run, d, m, u)
  {
    hide Step, Enabled, StartsAt;
    AllExplained(r, s, run);
    assert m in s.rows.Keys;
  }

  // ---- how long a pause lasts -------------------------------------------------------------------------

  /** The call has already worked out, for master `m`, something else than a pause until `u`. */
  predicate Stale(s: State, i: nat, m: nat, u: int) {
    i < |s.calls| && s.calls[i].master == m && s.calls[i].phase.Counted? && s.calls[i].phase.c.next != Some(u)
  }

  /** Nobody resumes master `m`, and it is only looked at before `u`. */
  ghost predicate Before(r: Rules, s: State, run: seq<Event>, m: nat, u: int)
    requires Legal(r, s, run)
  {
    forall j: nat :: j < |run| ==> QuietAt(r, s, run, j, m, u)
  }

  ghost predicate QuietAt(r: Rules, s: State, run: seq<Event>, j: nat, m: nat, u: int)
    requires Legal(r, s, run) && j < |run|
  {
    run[j] != ResumeBilling(m)
    && (run[j].Read? && ReadsMaster(Then(r, s, run, j), run[j].i, m) ==> run[j].now < u)
  }

  predicate ReadsMaster(s: State, i: nat, m: nat) { i < |s.calls| && s.calls[i].master == m }

  /** Some stale call stores its result during the run. */
  ghost predicate StaleWrite(s: State, run: seq<Event>, m: nat, u: int) {
    exists j: nat :: j < |run| && run[j].Write? && Stale(s, run[j].i, m, u)
  }

  /** The end `u` is stored, and whatever is about to be stored for `m` is `u` or stale from the
      start. */
  ghost predicate Holds(s: State, t: State, m: nat, u: int) {
    && m in t.rows && t.rows[m].pausedUntil == Some(u)
    && forall i: nat :: Stale(t, i, m, u) ==> Stale(s, i, m, u)
  }

  lemma HoldsStep(r: Rules, s: State, t: State, e: Event, m: nat, u: int)
    requires Enabled(t, e) && Holds(s, t, m, u) && e != ResumeBilling(m)
    requires e.Read? && ReadsMaster(t, e.i, m) ==> e.now < u
    requires e.Write? ==> !Stale(s, e.i, m, u)
    ensures Holds(s, Step(r, t, e), m, u)
  {
    hide Room, Overflow, Decide, Wanted, Pool, InvitedIds, Mark, Unassign, FirstPhase;
    NewCallIsNotCounted(t, e);
    var t' := Step(r, t, e);
    forall i: nat | Stale(t', i, m, u) ensures Stale(s, i, m, u) {
      if !(e.Read? && e.i == i) {
        assert Stale(t, i, m, u);
      }
    }
  }

  lemma {:induction false} PauseHolds(r: Rules, s: State, run: seq<Event>, m: nat, u: int)
    requires Legal(r, s, run) && m in s.rows && s.rows[m].pausedUntil == Some(u)
    requires Before(r, s, run, m, u) && !StaleWrite(s, run, m, u)
    ensures Holds(s, After(r, s, run), m, u)
  {
    hide Step, Enabled, Stale, Holds, QuietAt, ReadsMaster;
    if |run| == 0 {
      HoldsAtStart(s, m, u);
    } else {
      var init, j := run[..|run| - 1], |run| - 1;
      forall i: nat | i < |init| ensures QuietAt(r, s, init, i, m, u) {
        assert QuietAt(r, s, run, i, m, u);
        SameQuiet(r, s, run, i, m, u);
      }
      assert !StaleWrite(s, init, m, u) by {
        forall i: nat | i < |init| ensures !(init[i].Write? && Stale(s, init[i].i, m, u)) {
          assert init[i] == run[i];
        }
      }
      PauseHolds(r, s, init, m, u);
      QuietHere(r, s, run, j, m, u);
      assert run[j].Write? ==> !Stale(s, run[j].i, m, u);
      HoldsStep(r, s, After(r, s, init), run[j], m, u);
    }
  }

  lemma HoldsAtStart(s: State, m: nat, u: int)
    requires m in s.rows && s.rows[m].pausedUntil == Some(u)
    ensures Holds(s, s, m, u)
  {
  }

  lemma SameQuiet(r: Rules, s: State, run: seq<Event>, i: nat, m: nat, u: int)
    requires Legal(r, s, run) && i < |run| - 1 && QuietAt(r, s, run, i, m, u)
    ensures QuietAt(r, s, run[..|run| - 1], i, m, u)
  {
    hide Step, Enabled;
    var init := run[..|run| - 1];
    assert init[..i] == run[..i] && init[i] == run[i];
    assert Then(r, s, init, i) == Then(r, s, run, i);
  }

  lemma QuietHere(r: Rules, s: State, run: seq<Event>, j: nat, m: nat, u: int)
    requires Legal(r, s, run) && j == |run| - 1 && Before(r, s, run, m, u)
    ensures run[j] != ResumeBilling(m)
    ensures run[j].Read? && ReadsMaster(After(r, s, run[..j]), run[j].i, m) ==> run[j].now < u
  {
    hide Step, Enabled;
    assert QuietAt(r, s, run, j, m, u);
    assert Then(r, s, run, j) == After(r, s, run[..j]);
  }

  /** A call that has worked out its pause keeps it until it stores it, and never looks again. */
  lemma {:induction false} CountedStays(r: Rules, s: State, run: seq<Event>, i: nat)
    requires Legal(r, s, run) && i < |s.calls| && s.calls[i].phase.Counted?
    ensures var t := After(r, s, run);
      i < |t.calls| && t.calls[i].master == s.calls[i].master && !t.calls[i].phase.Looking?
      && (t.calls[i].phase.Counted? ==> t.calls[i].phase == s.calls[i].phase)
  {
    hide Step, Enabled;
    if |run| > 0 {
      CountedStays(r, s, run[..|run| - 1], i);
      PhaseMovesOn(r, After(r, s, run[..|run| - 1]), run[|run| - 1], i);
    }
  }

  lemma PhaseMovesOn(r: Rules, s: State, e: Event, i: nat)
    requires Enabled(s, e) && i < |s.calls| && !s.calls[i].phase.Looking?
    ensures i < |Step(r, s, e).calls| && Step(r, s, e).calls[i].master == s.calls[i].master
    ensures !Step(r, s, e).calls[i].phase.Looking?
    ensures Step(r, s, e).calls[i].phase.Counted? ==> Step(r, s, e).calls[i].phase == s.calls[i].phase
  {
    hide Compute, Decide, Wanted, Pool, InvitedIds, Mark, Unassign, FirstPhase;
  }

  /** Storing a stale result ends the pause. */
  lemma StaleWriteEnds(r: Rules, s: State, run: seq<Event>, j: nat, m: nat, u: int)
    requires Legal(r, s, run) && j < |run| && run[j].Write? && Stale(s, run[j].i, m, u)
    ensures m in Then(r, s, run, j + 1).rows && Then(r, s, run, j + 1).rows[m].pausedUntil != Some(u)
  {
    hide Compute, Decide, Wanted, Pool, InvitedIds, Mark, Unassign, FirstPhase;
    LegalPrefix(r, s, run, j);
    CountedStays(r, s, run[..j], run[j].i);
  }

  /** The pause holds after every event of the run. */
  ghost predicate HeldThroughout(r: Rules, s: State, run: seq<Event>, m: nat, u: int)
    requires Legal(r, s, run)
  {
    forall j: nat :: j <= |run| ==> HeldAfter(r, s, run, j, m, u)
  }

  ghost predicate HeldAfter(r: Rules, s: State, run: seq<Event>, j: nat, m: nat, u: int)
    requires Legal(r, s, run) && j <= |run|
  {
    m in Then(r, s, run, j).rows && Then(r, s, run, j).rows[m].pausedUntil == Some(u)
  }

  /** Exactly when an active pause keeps its end, over every run that neither resumes the master
      nor looks at it after the end: no computation that had worked out something else before the
      run stores it during the run.  Computations that start meanwhile, and invitations, never
      move the end. */
  lemma PauseKeepsItsEndExactly(r: Rules, s: State, run: seq<Event>, m: nat, u: int)
    requires Legal(r, s, run) && m in s.rows && s.rows[m].pausedUntil == Some(u) && Before(r, s, run, m, u)
    ensures HeldThroughout(r, s, run, m, u) <==> !StaleWrite(s, run, m, u)
  {
    hide Step, Enabled, QuietAt, Stale;
    if StaleWrite(s, run, m, u) {
      var j: nat :| j < |run| && run[j].Write? && Stale(s, run[j].i, m, u);
      StaleWriteEnds(r, s, run, j, m, u);
      assert !HeldAfter(r, s, run, j + 1, m, u);
    } else {
      forall j: nat | j <= |run| ensures HeldAfter(r, s, run, j, m, u) {
        LegalPrefix(r, s, run, j);
        BeforePrefix(r, s, run, j, m, u);
        PauseHolds(r, s, run[..j], m, u);
      }
    }
  }

  lemma BeforePrefix(r: Rules, s: State, run: seq<Event>, j: nat, m: nat, u: int)
    requires Legal(r, s, run) && j <= |run| && Before(r, s, run, m, u) && !StaleWrite(s, run, m, u)
    ensures Legal(r, s, run[..j]) && Before(r, s, run[..j], m, u) && !StaleWrite(s, run[..j], m, u)
  {
    hide Step, Enabled, Stale;
    LegalPrefix(r, s, run, j);
    forall i: nat | i < j ensures QuietAt(r, s, run[..j], i, m, u) {
      assert QuietAt(r, s, run, i, m, u);
      assert run[..j][..i] == run[..i] && run[..j][i] == run[i];
      assert Then(r, s, run[..j], i) == Then(r, s, run, i);
    }
    forall i: nat | i < j ensures !(run[..j][i].Write? && Stale(s, run[..j][i].i, m, u)) {
      assert run[..j][i] == run[i];
    }
  }

  // ---- what an admitted call has seen -----------------------------------------------------------------------

  /** Event `d` is where call `i` got its admission of `count` from. */
  ghost predicate GrantedAt(r: Rules, s: State, run: seq<Event>, d: nat, i: nat, wanted: nat, count: nat)
    requires Legal(r, s, run)
  {
    d < |run| &&
    var t, e := Then(r, s, run, d), run[d];
    (e.Fail? && e.i == i && count == wanted)
    || (e.Read? && e.i == i && InFlight(t, i) && Decide(Count(r, t, i, e.now, e.hours, e.x), wanted) == Admit(count))
  }

  ghost predicate CountedAt(r: Rules, s: State, run: seq<Event>, d: nat, i: nat, c: Computed)
    requires Legal(r, s, run)
  {
    d < |run| &&
    var t, e := Then(r, s, run, d), run[d];
    e.Read? && e.i == i && InFlight(t, i) && c == Count(r, t, i, e.now, e.hours, e.x)
  }

  /** Counted calls have read, and guarded calls that are admitted have a reason. */
  ghost predicate Reasoned(r: Rules, s: State, run: seq<Event>, call: Call, i: nat)
    requires Legal(r, s, run)
  {
    && (call.phase.Counted? ==> exists d: nat :: CountedAt(r, s, run, d, i, call.phase.c))
    && (call.phase.Admitted? && call.request.Some? && !call.request.value.ignoreGuard ==>
          exists d: nat :: GrantedAt(r, s, run, d, i, Wanted(call.request.value.count), call.phase.count))
    && (call.phase.Admitted? ==> call.request.Some?)
  }

  lemma ReasonStays(r: Rules, s: State, run: seq<Event>, call: Call, i: nat)
    requires Legal(r, s, run) && |run| > 0 && Reasoned(r, s, run[..|run| - 1], call, i)
    ensures Reasoned(r, s, run, call, i)
  {
    hide Step, Enabled, Compute, Decide, Wanted;
    var init := run[..|run| - 1];
    if call.phase.Counted? {
      var d: nat :| CountedAt(r, s, init, d, i, call.phase.c);
      assert init[..d] == run[..d] && init[d] == run[d];
      assert Then(r, s, init, d) == Then(r, s, run, d);
      assert CountedAt(r, s, run, d, i, call.phase.c);
    }
    if call.phase.Admitted? && call.request.Some? && !call.request.value.ignoreGuard {
      var w := Wanted(call.request.value.count);
      var d: nat :| GrantedAt(r, s, init, d, i, w, call.phase.count);
      assert init[..d] == run[..d] && init[d] == run[d];
      assert Then(r, s, init, d) == Then(r, s, run, d);
      assert GrantedAt(r, s, run, d, i, w, call.phase.count);
    }
  }

  /** The event that a call moves by. */
  predicate Moves(e: Event, i: nat) {
    match e
    case Begin(_, _) => false
    case ResumeBilling(_) => false
    case Configure(_, _) => false
    case RemoveMember(_, _) => false
    case _ => e.i == i
  }

  lemma OthersStayPut(r: Rules, s: State, e: Event, i: nat)
    requires Enabled(s, e) && i < |s.calls| && !Moves(e, i)
    ensures i < |Step(r, s, e).calls| && Step(r, s, e).calls[i] == s.calls[i]
  {
    hide Compute, Decide, Wanted, Pool, InvitedIds, Mark, Unassign, FirstPhase;
  }

  lemma MovingIsReasoned(r: Rules, s: State, run: seq<Event>, i: nat)
    requires Legal(r, s, run) && |run| > 0 && Moves(run[|run| - 1], i)
    requires i < |After(r, s, run[..|run| - 1]).calls| && i < |After(r, s, run).calls|
    requires Reasoned(r, s, run[..|run| - 1], After(r, s, run[..|run| - 1]).calls[i], i)
    ensures Reasoned(r, s, run, After(r, s, run).calls[i], i)
  {
    hide Compute, Decide, Wanted, Pool, InvitedIds, Mark, Unassign, FirstPhase;
    var init, e := run[..|run| - 1], run[|run| - 1];
    var t := After(r, s, init);
    assert Then(r, s, run, |run| - 1) == t;
    match e
    case Fail(_, _) =>
      if t.calls[i].request.Some? {
        assert GrantedAt(r, s, run, |run| - 1, i, Wanted(t.calls[i].request.value.count),
          Wanted(t.calls[i].request.value.count));
      }
    case Read(_, now, hours, x) =>
      assert CountedAt(r, s, run, |run| - 1, i, Count(r, t, i, now, hours, x));
    case Write(_) => WritingIsReasoned(r, s, run, i);
    case _ =>
  }

  lemma WritingIsReasoned(r: Rules, s: State, run: seq<Event>, i: nat)
    requires Legal(r, s, run) && |run| > 0 && run[|run| - 1] == Write(i)
    requires i < |After(r, s, run[..|run| - 1]).calls| && i < |After(r, s, run).calls|
    requires Reasoned(r, s, run[..|run| - 1], After(r, s, run[..|run| - 1]).calls[i], i)
    ensures Reasoned(r, s, run, After(r, s, run).calls[i], i)
  {
    hide Compute, Decide, Wanted, Pool, InvitedIds, Mark, Unassign, FirstPhase;
    var init := run[..|run| - 1];
    var call := After(r, s, init).calls[i];
    ReasonStays(r, s, run, call, i);
    var d: nat :| CountedAt(r, s, run, d, i, call.phase.c);
    if call.request.Some? && Decide(call.phase.c, Wanted(call.request.value.count)).Admit? {
      assert GrantedAt(r, s, run, d, i, Wanted(call.request.value.count),
        Decide(call.phase.c, Wanted(call.request.value.count)).count);
    }
  }

  lemma {:induction false} AllReasoned(r: Rules, s: State, run: seq<Event>, i: nat)
    requires Legal(r, s, run) && s.calls == [] && i < |After(r, s, run).calls|
    ensures Reasoned(r, s, run, After(r, s, run).calls[i], i)
  {
    hide Step, Enabled, Reasoned;
    var init, e := run[..|run| - 1], run[|run| - 1];
    var t := After(r, s, init);
    if i < |t.calls| {
      AllReasoned(r, s, init, i);
      if Moves(e, i) {
        MovingIsReasoned(r, s, run, i);
      } else {
        ReasonStays(r, s, run, t.calls[i], i);
        OthersStayPut(r, t, e, i);
      }
    } else {
      NewCallIsReasoned(r, s, run, i);
    }
  }

  lemma NewCallIsReasoned(r: Rules, s: State, run: seq<Event>, i: nat)
    requires Legal(r, s, run) && |run| > 0
    requires |After(r, s, run[..|run| - 1]).calls| <= i < |After(r, s, run).calls|
    ensures Reasoned(r, s, run, After(r, s, run).calls[i], i)
  {
    hide Compute, Decide, Wanted, Pool, InvitedIds, Mark, Unassign;
  }

  /** A guarded invitation draws only after a computation that raised, or after one that read no
      active pause and no overflow; and then, if the pending invitations could be read, members,
      pending invitations and what this invitation sends fit the plan that it read. */
  lemma GuardedDrawFitsItsReading(r: Rules, s: State, run: seq<Event>, i: nat)
    requires Legal(r, s, run) && s.calls == [] && Enabled(After(r, s, run), Draw(i))
    requires var call := After(r, s, run).calls[i]; call.request.Some? && !call.request.value.ignoreGuard
    ensures exists d: nat :: FitsReading(r, s, run, d, i, After(r, s, run).calls[i].phase.count)
  {
    hide Step, Reasoned, Compute, Decide, Wanted;
    AllReasoned(r, s, run, i);
    GrantedFits(r, s, run, i);
  }

  ghost predicate FitsReading(r: Rules, s: State, run: seq<Event>, d: nat, i: nat, count: nat)
    requires Legal(r, s, run)
  {
    d < |run| &&
    var t, e := Then(r, s, run, d), run[d];
    (e.Fail? && e.i == i)
    || (e.Read? && e.i == i && InFlight(t, i)
        && var row := t.rows[t.calls[i].master];
           !Active(row.pausedUntil, e.now) && !Overflow(r, row.planSeats, e.x)
           && (e.x.pending.Some? ==>
                 e.x.active + e.x.pending.value + SentTo(After(r, s, run).accounts, count)
                   <= Plan(r, row.planSeats, e.x)))
  }

  lemma GrantedFits(r: Rules, s: State, run: seq<Event>, i: nat)
    requires Legal(r, s, run) && i < |After(r, s, run).calls| && After(r, s, run).calls[i].phase.Admitted?
    requires var call := After(r, s, run).calls[i];
      call.request.Some? && !call.request.value.ignoreGuard && Reasoned(r, s, run, call, i)
    ensures exists d: nat :: FitsReading(r, s, run, d, i, After(r, s, run).calls[i].phase.count)
  {
    hide Step, Enabled, UpcomingSeats, Wanted, SentTo;
    var call := After(r, s, run).calls[i];
    var w := Wanted(call.request.value.count);
    var d: nat :| GrantedAt(r, s, run, d, i, w, call.phase.count);
    var t, e := Then(r, s, run, d), run[d];
    if e.Read? {
      var row := t.rows[t.calls[i].master];
      GrantMeans(r, row.planSeats, row.pausedUntil, e.now, e.hours, e.x, w, After(r, s, run).accounts);
    }
    assert FitsReading(r, s, run, d, i, call.phase.count);
  }

  lemma GrantMeans(
      r: Rules, planSeats: int, pausedUntil: Option<int>, now: int, hours: int, x: Reading, wanted: nat,
      accounts: seq<Account>)
    requires Decide(Compute(r, planSeats, pausedUntil, now, hours, x), wanted).Admit?
    ensures var count := Decide(Compute(r, planSeats, pausedUntil, now, hours, x), wanted).count;
      && !Active(pausedUntil, now) && !Overflow(r, planSeats, x)
      && (x.pending.Some? ==> x.active + x.pending.value + SentTo(accounts, count) <= Plan(r, planSeats, x))
  {
    hide UpcomingSeats, SentTo;
    if x.pending.Some? {
      GuardKeepsThePlan(r, planSeats, pausedUntil, now, hours, x, wanted, accounts);
    }
  }

  /** A computation that sees an overflow or reads an active pause stores an active pause, and the
      invitation it belongs to is refused; whatever happens in between. */
  lemma SeenPauseRefuses(r: Rules, s: State, e: Event, run: seq<Event>)
    requires Enabled(s, e) && e.Read? && Legal(r, Step(r, s, e), run)
      && Enabled(After(r, Step(r, s, e), run), Write(e.i))
    requires var row := s.rows[s.calls[e.i].master]; Active(row.pausedUntil, e.now) || Overflow(r, row.planSeats, e.x)
    ensures var m, t := s.calls[e.i].master, Step(r, After(r, Step(r, s, e), run), Write(e.i));
      && m in t.rows && Active(t.rows[m].pausedUntil, e.now)
      && e.i < |t.calls| && (s.calls[e.i].request.Some? ==> t.calls[e.i].phase == Finished(Refused(409)))
  {
    hide Overflow, Room, Wanted, Pool, InvitedIds, Mark, Unassign, FirstPhase;
    var s1 := Step(r, s, e);
    assert s1.calls[e.i].phase == Counted(Count(r, s, e.i, e.now, e.hours, e.x));
    CountedStays(r, s1, run, e.i);
    RequestStays(r, s1, run, e.i);
  }

  lemma {:induction false} RequestStays(r: Rules, s: State, run: seq<Event>, i: nat)
    requires Legal(r, s, run) && i < |s.calls|
    ensures i < |After(r, s, run).calls| && After(r, s, run).calls[i].request == s.calls[i].request
  {
    hide Step, Enabled;
    if |run| > 0 {
      RequestStays(r, s, run[..|run| - 1], i);
      RequestStep(r, After(r, s, run[..|run| - 1]), run[|run| - 1], i);
    }
  }

  lemma RequestStep(r: Rules, s: State, e: Event, i: nat)
    requires Enabled(s, e) && i < |s.calls|
    ensures i < |Step(r, s, e).calls| && Step(r, s, e).calls[i].request == s.calls[i].request
  {
    hide Compute, Decide, Wanted, Pool, InvitedIds, Mark, Unassign, FirstPhase;
  }
}
