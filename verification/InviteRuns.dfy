/** Invitations and statistics of several masters, overlapping freely (api/business_masters.py).

    The routes take no lock: each of their database sessions is one step here, and other calls
    run between them and during the remote reads and sends. */
module InviteRuns {
  import opened Basics
  import opened Decimal
  import opened Text
  import opened SeatCapacity
  import opened AdmissionGuard

  /** The stored master row, as far as the guard reads and writes it. */
  datatype Row = Row(enabled: bool, cookie: string, planSeats: int, pausedUntil: Option<int>)

  datatype End = Refused(code: nat) | Failed(code: nat) | NobodyToInvite | Refreshed
    | Marked(pool: seq<Picked>, ids: seq<nat>)

  /** Where a call is: reading the workspace; with a pause computed but not yet stored; admitted;
      with its pool drawn; with its batches sent and answered; over. */
  datatype Phase =
    | Looking
    | Counted(c: Computed)
    | Admitted(count: nat)
    | Drawn(pool: seq<Picked>)
    | Reported(pool: seq<Picked>, ids: seq<nat>)
    | Finished(end: End)

  /** One call in flight or over; without a request it only computes statistics. */
  datatype Call = Call(master: nat, request: Option<Request>, phase: Phase)

  datatype State = State(rows: map<nat, Row>, accounts: seq<Account>, calls: seq<Call>)

  datatype Event =
    | Begin(master: nat, request: Option<Request>)
    | Fail(i: nat, code: nat)
    | Read(i: nat, now: int, hours: int, x: Reading)
    | Write(i: nat)
    | Draw(i: nat)
    | Send(i: nat, reported: seq<string>)
    | MarkSent(i: nat)
    | ResumeBilling(master: nat)
    | Configure(master: nat, planSeats: int)
    | RemoveMember(master: nat, email: string)

  /** How a call starts: the row's own checks, then the guard unless it is to be ignored. */
  function FirstPhase(s: State, master: nat, request: Option<Request>): Phase {
    if master !in s.rows then Finished(if request.Some? then Refused(404) else Failed(404))
    else
      var row := s.rows[master];
      if request.None? then if Strip(row.cookie) == "" then Finished(Failed(400)) else Looking
      else if !row.enabled || Strip(row.cookie) == "" then Finished(Refused(400))
      else if request.value.ignoreGuard then Admitted(Wanted(request.value.count))
      else Looking
  }

  predicate InFlight(s: State, i: nat) { i < |s.calls| && s.calls[i].master in s.rows }

  predicate Enabled(s: State, e: Event) {
    match e
    case Begin(_, _) => true
    case Fail(i, _) => InFlight(s, i) && s.calls[i].phase.Looking?
    case Read(i, _, _, _) => InFlight(s, i) && s.calls[i].phase.Looking?
    case Write(i) => InFlight(s, i) && s.calls[i].phase.Counted?
    case Draw(i) => InFlight(s, i) && s.calls[i].phase.Admitted?
    case Send(i, _) => InFlight(s, i) && s.calls[i].phase.Drawn?
    case MarkSent(i) => InFlight(s, i) && s.calls[i].phase.Reported?
    case ResumeBilling(m) => m in s.rows
    case Configure(m, _) => m in s.rows
    case RemoveMember(m, _) => m in s.rows
  }

  function Move(s: State, i: nat, phase: Phase): State
    requires i < |s.calls|
  {
    s.(calls := s.calls[i := s.calls[i].(phase := phase)])
  }

  /** After a computation raised: an invitation goes on without a limit. */
  function AfterFailure(call: Call, code: nat): Phase {
    if call.request.None? then Finished(Failed(code)) else Admitted(Wanted(call.request.value.count))
  }

  /** After the computation was stored. */
  function AfterCount(call: Call, c: Computed): Phase {
    if call.request.None? then Finished(Refreshed)
    else match Decide(c, Wanted(call.request.value.count))
      case Refuse(code) => Finished(Refused(code))
      case Admit(count) => Admitted(count)
  }

  function Draws(accounts: seq<Account>, count: nat): Phase {
    if Pool(accounts, count) == [] then Finished(NobodyToInvite) else Drawn(Pool(accounts, count))
  }

  /** `remove_member` clears the assignment to this master and nothing else. */
  function Unassigned(a: Account, master: nat, email: string): Account {
    if a.owner == Numeral(master) && Strip(email) != "" && a.email == Lower(Strip(email)) then a.(owner := "") else a
  }

  function Unassign(accounts: seq<Account>, master: nat, email: string): (t: seq<Account>)
    ensures |t| == |accounts|
    ensures forall i :: 0 <= i < |t| ==> t[i] == Unassigned(accounts[i], master, email)
  {
    seq(|accounts|, i requires 0 <= i < |accounts| => Unassigned(accounts[i], master, email))
  }

  function Count(r: Rules, s: State, i: nat, now: int, hours: int, x: Reading): Computed
    requires InFlight(s, i)
  {
    var row := s.rows[s.calls[i].master];
    Compute(r, row.planSeats, row.pausedUntil, now, hours, x)
  }

  function Step(r: Rules, s: State, e: Event): State
    requires Enabled(s, e)
  {
    match e
    case Begin(m, request) => s.(calls := s.calls + [Call(m, request, FirstPhase(s, m, request))])
    case Fail(i, code) => Move(s, i, AfterFailure(s.calls[i], code))
    case Read(i, now, hours, x) => Move(s, i, Counted(Count(r, s, i, now, hours, x)))
    case Write(i) =>
      var m, c := s.calls[i].master, s.calls[i].phase.c;
      Move(s, i, AfterCount(s.calls[i], c)).(rows := s.rows[m := s.rows[m].(pausedUntil := c.next)])
    case Draw(i) => Move(s, i, Draws(s.accounts, s.calls[i].phase.count))
    case Send(i, reported) =>
      var pool := s.calls[i].phase.pool;
      Move(s, i, Reported(pool, InvitedIds(pool, reported)))
    case MarkSent(i) =>
      var p := s.calls[i].phase;
      Move(s, i, Finished(Marked(p.pool, p.ids))).(accounts := Mark(s.accounts, p.ids, s.calls[i].master))
    case ResumeBilling(m) => s.(rows := s.rows[m := s.rows[m].(pausedUntil := None)])
    case Configure(m, planSeats) => s.(rows := s.rows[m := s.rows[m].(planSeats := planSeats)])
    case RemoveMember(m, email) => s.(accounts := Unassign(s.accounts, m, email))
  }

  ghost predicate Legal(r: Rules, s: State, run: seq<Event>)
    decreases |run|, 0
  {
    |run| > 0 ==> Legal(r, s, run[..|run| - 1]) && Enabled(After(r, s, run[..|run| - 1]), run[|run| - 1])
  }

  ghost function After(r: Rules, s: State, run: seq<Event>): State
    requires Legal(r, s, run)
    decreases |run|, 1
  {
    if |run| == 0 then s else Step(r, After(r, s, run[..|run| - 1]), run[|run| - 1])
  }

  lemma {:induction false} LegalPrefix(r: Rules, s: State, run: seq<Event>, j: nat)
    requires Legal(r, s, run) && j <= |run|
    ensures Legal(r, s, run[..j])
    ensures j < |run| ==> Enabled(After(r, s, run[..j]), run[j]) && Legal(r, s, run[..j + 1])
                          && After(r, s, run[..j + 1]) == Step(r, After(r, s, run[..j]), run[j])
    decreases |run|
  {
    hide Step, Enabled;
    if j == |run| {
      assert run[..j] == run;
    } else if j == |run| - 1 {
      assert run[..j + 1] == run;
    } else {
      var init := run[..|run| - 1];
      LegalPrefix(r, s, init, j);
      assert init[..j] == run[..j] && init[..j + 1] == run[..j + 1] && init[j] == run[j];
    }
  }

  /** The state after the first `j` events. */
  ghost function Then(r: Rules, s: State, run: seq<Event>, j: nat): State
    requires Legal(r, s, run) && j <= |run|
  {
    LegalPrefix(r, s, run, j);
    After(r, s, run[..j])
  }

  /** Nobody is admitted for nothing. */
  ghost predicate Positive(s: State) {
    forall i :: 0 <= i < |s.calls| && s.calls[i].phase.Admitted? ==> s.calls[i].phase.count > 0
  }

  lemma PositiveStep(r: Rules, s: State, e: Event)
    requires Enabled(s, e) && Positive(s)
    ensures Positive(Step(r, s, e))
  {
    hide Compute, Pool, InvitedIds, Mark, Unassign, Strip;
  }

  lemma {:induction false} CountsArePositive(r: Rules, s: State, run: seq<Event>)
    requires Legal(r, s, run) && Positive(s)
    ensures Positive(After(r, s, run))
  {
    hide Step, Enabled, Positive;
    if |run| > 0 {
      CountsArePositive(r, s, run[..|run| - 1]);
      PositiveStep(r, After(r, s, run[..|run| - 1]), run[|run| - 1]);
    }
  }

  // ---- accounts ------------------------------------------------------------------------------------

  /** The event records account `id` as invited. */
  predicate MarksId(s: State, e: Event, id: nat) {
    e.MarkSent? && Enabled(s, e) && id in s.calls[e.i].phase.ids
  }

  /** A status no pool takes: what an invitation leaves behind. */
  predicate Retired(a: Account) { a.status != "registered" && a.status != "csv_exported" }

  lemma StepOnAccount(r: Rules, s: State, e: Event, k: nat)
    requires Enabled(s, e) && k < |s.accounts|
    ensures var t := Step(r, s, e);
      |t.accounts| == |s.accounts| && t.accounts[k].id == s.accounts[k].id && t.accounts[k].email == s.accounts[k].email
    ensures MarksId(s, e, s.accounts[k].id) ==>
      Step(r, s, e).accounts[k] == s.accounts[k].(status := "csv_uploaded", owner := Numeral(s.calls[e.i].master))
    ensures !MarksId(s, e, s.accounts[k].id) ==>
      Step(r, s, e).accounts[k] == s.accounts[k]
      || (e.RemoveMember? && Step(r, s, e).accounts[k] == s.accounts[k].(owner := ""))
  {
    hide Numeral, Strip, Lower, Pool, InvitedIds, Compute, Decide, FirstPhase;
  }

  /** Removing a member from the workspace does not bring an invitable account about: its status
      stays, and only accounts that were assigned lose their assignment. */
  lemma InvitableStep(r: Rules, s: State, e: Event, k: nat)
    requires Enabled(s, e) && k < |s.accounts| && Invitable(s.accounts[k])
    ensures |Step(r, s, e).accounts| == |s.accounts|
    ensures Invitable(Step(r, s, e).accounts[k]) <==> !MarksId(s, e, s.accounts[k].id)
  {
    hide Numeral, Pool, InvitedIds, Compute, Decide, FirstPhase, MarksId, Trim;
    StepOnAccount(r, s, e, k);
    TrimTwice("", IsSpace);
    assert Strip("") == "";
    hide Step;
  }

  lemma {:induction false} AccountsKeepIds(r: Rules, s: State, run: seq<Event>)
    requires Legal(r, s, run) && DistinctIds(s.accounts)
    ensures var t := After(r, s, run);
      |t.accounts| == |s.accounts| && DistinctIds(t.accounts)
      && forall k :: 0 <= k < |s.accounts| ==> t.accounts[k].id == s.accounts[k].id
  {
    hide Step, Enabled;
    if |run| > 0 {
      var init := run[..|run| - 1];
      AccountsKeepIds(r, s, init);
      var t, e := After(r, s, init), run[|run| - 1];
      forall k: nat | k < |t.accounts|
        ensures |Step(r, t, e).accounts| == |t.accounts| && Step(r, t, e).accounts[k].id == t.accounts[k].id
      {
        StepOnAccount(r, t, e, k);
      }
      SameSize(r, t, e);
    }
  }

  lemma SameSize(r: Rules, s: State, e: Event)
    requires Enabled(s, e)
    ensures |Step(r, s, e).accounts| == |s.accounts|
  {
    hide Numeral, Strip, Lower, Pool, InvitedIds, Compute, Decide, FirstPhase;
  }

  /** Somewhere in the run the account is recorded as invited. */
  ghost predicate MarkedIn(r: Rules, s: State, run: seq<Event>, id: nat)
    requires Legal(r, s, run)
  {
    exists j: nat :: j < |run| && MarksAt(r, s, run, j, id)
  }

  ghost predicate MarksAt(r: Rules, s: State, run: seq<Event>, j: nat, id: nat)
    requires Legal(r, s, run) && j < |run|
  {
    MarksId(Then(r, s, run, j), run[j], id)
  }

  lemma MarkedInPrefix(r: Rules, s: State, run: seq<Event>, id: nat)
    requires Legal(r, s, run) && |run| > 0
    ensures MarkedIn(r, s, run, id) <==>
      MarkedIn(r, s, run[..|run| - 1], id) || MarksId(After(r, s, run[..|run| - 1]), run[|run| - 1], id)
  {
    hide MarksId, Step, Enabled;
    var init := run[..|run| - 1];
    forall j: nat | j < |init| ensures MarksAt(r, s, init, j, id) <==> MarksAt(r, s, run, j, id) {
      assert init[..j] == run[..j] && init[j] == run[j];
    }
    assert MarksAt(r, s, run, |run| - 1, id) <==> MarksId(After(r, s, init), run[|run| - 1], id);
  }

  /** From the moment an account is invitable it stays so exactly until an invitation that was
      answered for it is recorded; drawing and sending do not take it out of the pool. */
  lemma {:induction false} InvitableUntilMarked(r: Rules, s: State, run: seq<Event>, k: nat)
    requires Legal(r, s, run) && DistinctIds(s.accounts) && k < |s.accounts| && Invitable(s.accounts[k])
    ensures |After(r, s, run).accounts| == |s.accounts| && After(r, s, run).accounts[k].id == s.accounts[k].id
    ensures Invitable(After(r, s, run).accounts[k]) <==> !MarkedIn(r, s, run, s.accounts[k].id)
    ensures !Invitable(After(r, s, run).accounts[k]) ==> Retired(After(r, s, run).accounts[k])
  {
    hide Step, Enabled, MarksId, Invitable;
    if |run| > 0 {
      var init, id := run[..|run| - 1], s.accounts[k].id;
      InvitableUntilMarked(r, s, init, k);
      MarkedInPrefix(r, s, run, id);
      var t, e := After(r, s, init), run[|run| - 1];
      hide MarkedIn;
      if Invitable(t.accounts[k]) {
        InvitableStep(r, t, e, k);
        StepOnAccount(r, t, e, k);
        MarkedIsRetired(r, t, e, k);
      } else {
        RetiredStays(r, t, e, k);
      }
    }
  }

  lemma MarkedIsRetired(r: Rules, s: State, e: Event, k: nat)
    requires Enabled(s, e) && k < |s.accounts|
    ensures |Step(r, s, e).accounts| == |s.accounts|
    ensures MarksId(s, e, s.accounts[k].id) ==> Retired(Step(r, s, e).accounts[k])
  {
    StepOnAccount(r, s, e, k);
    hide Step, MarksId;
  }

  /** Whatever happens to an account that was invited - removal from the workspace included - no
      pool takes it again. */
  lemma RetiredStays(r: Rules, s: State, e: Event, k: nat)
    requires Enabled(s, e) && k < |s.accounts| && Retired(s.accounts[k])
    ensures |Step(r, s, e).accounts| == |s.accounts|
    ensures Step(r, s, e).accounts[k].id == s.accounts[k].id
    ensures Retired(Step(r, s, e).accounts[k]) && !Invitable(Step(r, s, e).accounts[k])
  {
    StepOnAccount(r, s, e, k);
    hide Step, Strip;
  }

  lemma {:induction false} RetiredForGood(r: Rules, s: State, run: seq<Event>, k: nat)
    requires Legal(r, s, run) && k < |s.accounts| && Retired(s.accounts[k])
    ensures var t := After(r, s, run);
      |t.accounts| == |s.accounts| && t.accounts[k].id == s.accounts[k].id && Retired(t.accounts[k])
        && !Invitable(t.accounts[k])
  {
    hide Step, Enabled, Retired, Invitable;
    if |run| > 0 {
      RetiredForGood(r, s, run[..|run| - 1], k);
      RetiredStays(r, After(r, s, run[..|run| - 1]), run[|run| - 1], k);
    } else {
      RetiredIsOut(s.accounts[k]);
    }
  }

  lemma RetiredIsOut(a: Account)
    requires Retired(a)
    ensures !Invitable(a)
  {
    hide Strip;
  }

  /** Exactly when an account whose member is removed from the workspace of master `m` is
      invitable afterwards: when its status was invitable all along. */
  lemma RemovedIsInvitableExactly(r: Rules, s: State, m: nat, email: string, k: nat)
    requires m in s.rows && k < |s.accounts|
    requires Strip(email) != "" && s.accounts[k].email == Lower(Strip(email))
    ensures var a, t := s.accounts[k], Step(r, s, RemoveMember(m, email));
      Invitable(t.accounts[k]) <==>
      (a.status == "registered" || a.status == "csv_exported") && Strip(a.email) != ""
      && (a.owner == Numeral(m) || Strip(a.owner) == "")
  {
    hide Trim, Lower, Numeral;
    TrimTwice("", IsSpace);
    assert Strip("") == "";
  }

  // ---- when two batches share an account ----------------------------------------------------------------------

  /** Exactly when a second draw takes an account that an earlier draw has taken: nobody has
      recorded it in between, and it is early enough in the table for the second limit. */
  lemma DrawnAgainExactly(r: Rules, s: State, run: seq<Event>, k: nat, first: nat, second: nat)
    requires Legal(r, s, run) && DistinctIds(s.accounts) && k < |s.accounts|
    requires InPool(Pool(s.accounts, first), s.accounts[k].id)
    ensures |After(r, s, run).accounts| == |s.accounts|
    ensures InPool(Pool(After(r, s, run).accounts, second), s.accounts[k].id) <==>
      !MarkedIn(r, s, run, s.accounts[k].id) && |Invitables(After(r, s, run).accounts[..k])| < second
  {
    hide Invitable, MarkedIn, Pool, Invitables, Step, Enabled;
    InPoolExactly(s.accounts, k, first);
    InvitableUntilMarked(r, s, run, k);
    AccountsKeepIds(r, s, run);
    InPoolExactly(After(r, s, run).accounts, k, second);
  }

  /** The pool of a call that has drawn. */
  function PoolOf(p: Phase): seq<Picked> {
    match p
    case Drawn(pool) => pool
    case Reported(pool, _) => pool
    case Finished(Marked(pool, _)) => pool
    case _ => []
  }

  /** Call `i` drew `pool` at event `d`. */
  ghost predicate DrewAt(r: Rules, s: State, run: seq<Event>, i: nat, d: nat, pool: seq<Picked>)
    requires Legal(r, s, run)
  {
    d < |run| && run[d] == Draw(i) && IsDraw(pool, Then(r, s, run, d).accounts)
  }

  ghost predicate IsDraw(pool: seq<Picked>, accounts: seq<Account>) {
    exists count :: pool == Pool(accounts, count)
  }

  lemma StepOnPool(r: Rules, s: State, e: Event, i: nat)
    requires Enabled(s, e) && i < |Step(r, s, e).calls|
    ensures PoolOf(Step(r, s, e).calls[i].phase) == []
         || (i < |s.calls| && PoolOf(Step(r, s, e).calls[i].phase) == PoolOf(s.calls[i].phase))
         || (e == Draw(i) && IsDraw(PoolOf(Step(r, s, e).calls[i].phase), s.accounts))
  {
    hide Pool, InvitedIds, Compute, Decide, Wanted, Mark, Unassign, Strip;
    if e.Draw? && e.i == i {
      assert PoolOf(Step(r, s, e).calls[i].phase) == []
          || PoolOf(Step(r, s, e).calls[i].phase) == Pool(s.accounts, s.calls[i].phase.count);
    }
  }

  lemma {:induction false} EveryPoolWasDrawn(r: Rules, s: State, run: seq<Event>, i: nat)
    requires Legal(r, s, run) && s.calls == [] && i < |After(r, s, run).calls|
    requires PoolOf(After(r, s, run).calls[i].phase) != []
    ensures exists d: nat :: DrewAt(r, s, run, i, d, PoolOf(After(r, s, run).calls[i].phase))
  {
    hide Step, Enabled, Pool, PoolOf, IsDraw;
    var init, e := run[..|run| - 1], run[|run| - 1];
    var t, pool := After(r, s, init), PoolOf(After(r, s, run).calls[i].phase);
    StepOnPool(r, t, e, i);
    if i < |t.calls| && pool == PoolOf(t.calls[i].phase) {
      EveryPoolWasDrawn(r, s, init, i);
      var d: nat :| DrewAt(r, s, init, i, d, pool);
      assert init[..d] == run[..d] && init[d] == run[d];
      assert Then(r, s, init, d) == Then(r, s, run, d);
      assert DrewAt(r, s, run, i, d, pool);
    } else {
      assert Then(r, s, run, |run| - 1) == t;
      assert DrewAt(r, s, run, i, |run| - 1, pool);
    }
  }

  /** A call's ids are from its pool. */
  ghost predicate IdsFromPool(s: State) {
    forall i, id :: 0 <= i < |s.calls| && s.calls[i].phase.Reported? && id in s.calls[i].phase.ids ==>
      InPool(s.calls[i].phase.pool, id)
  }

  lemma {:induction false} IdsStayFromPool(r: Rules, s: State, run: seq<Event>)
    requires Legal(r, s, run) && IdsFromPool(s)
    ensures IdsFromPool(After(r, s, run))
  {
    hide Step, Enabled, InPool;
    if |run| > 0 {
      IdsStayFromPool(r, s, run[..|run| - 1]);
      IdsStep(r, After(r, s, run[..|run| - 1]), run[|run| - 1]);
    }
  }

  lemma IdsStep(r: Rules, s: State, e: Event)
    requires Enabled(s, e) && IdsFromPool(s)
    ensures IdsFromPool(Step(r, s, e))
  {
    hide InPool, InvitedIds, Pool, Compute, Decide, Wanted, Mark, Unassign, Strip;
    if e.Send? {
      forall id | id in InvitedIds(s.calls[e.i].phase.pool, e.reported) ensures InPool(s.calls[e.i].phase.pool, id) {
        InvitedAreInPool(s.calls[e.i].phase.pool, e.reported, id);
      }
    }
  }

  /** Nobody is recorded as invited twice unless two invitations overlapped: if two records name
      the same account, the later call had drawn its pool before the earlier record. */
  lemma RecordedTwiceMeansOverlap(r: Rules, s: State, run: seq<Event>, k: nat, j1: nat, j2: nat)
    requires Legal(r, s, run) && s.calls == [] && DistinctIds(s.accounts) && k < |s.accounts|
    requires j1 < j2 < |run| && MarksAt(r, s, run, j1, s.accounts[k].id) && MarksAt(r, s, run, j2, s.accounts[k].id)
    ensures exists d: nat :: d < j1 && run[d] == Draw(run[j2].i)
  {
    hide Step, Enabled, Pool, PoolOf, InPool, Invitable, Retired, IsDraw;
    var id, i := s.accounts[k].id, run[j2].i;
    MarkNamesItsPool(r, s, run, j2, id);
    LegalPrefix(r, s, run, j2);
    EveryPoolWasDrawn(r, s, run[..j2], i);
    var pool := PoolOf(Then(r, s, run, j2).calls[i].phase);
    var d: nat :| DrewAt(r, s, run[..j2], i, d, pool);
    assert run[..j2][..d] == run[..d] && run[..j2][d] == run[d];
    assert Then(r, s, run[..j2], d) == Then(r, s, run, d);
    MarkNamesItsPool(r, s, run, j1, id);
    if d > j1 {
      DrawnAfterMark(r, s, run, k, j1, d, pool);
    }
  }

  lemma MarkNamesItsPool(r: Rules, s: State, run: seq<Event>, j: nat, id: nat)
    requires Legal(r, s, run) && s.calls == [] && j < |run| && MarksAt(r, s, run, j, id)
    ensures run[j].MarkSent? && run[j].i < |Then(r, s, run, j).calls|
    ensures InPool(PoolOf(Then(r, s, run, j).calls[run[j].i].phase), id)
      && PoolOf(Then(r, s, run, j).calls[run[j].i].phase) != []
  {
    hide Step;
    LegalPrefix(r, s, run, j);
    IdsStayFromPool(r, s, run[..j]);
  }

  /** After a record no draw takes the account. */
  lemma DrawnAfterMark(r: Rules, s: State, run: seq<Event>, k: nat, j: nat, d: nat, pool: seq<Picked>)
    requires Legal(r, s, run) && DistinctIds(s.accounts) && k < |s.accounts| && j < d < |run|
    requires MarksAt(r, s, run, j, s.accounts[k].id)
    requires IsDraw(pool, Then(r, s, run, d).accounts)
    ensures !InPool(pool, s.accounts[k].id)
  {
    hide Step, Enabled, Pool, InPool, Invitable, Retired, MarksId;
    var id := s.accounts[k].id;
    LegalPrefix(r, s, run, j);
    LegalPrefix(r, s, run, d);
    AccountsKeepIds(r, s, run[..j]);
    AccountsKeepIds(r, s, run[..d]);
    MarkedIsRetired(r, Then(r, s, run, j), run[j], k);
    RestOfRun(r, s, run, j + 1, d);
    RetiredForGood(r, Then(r, s, run, j + 1), run[j + 1..d], k);
    var count :| pool == Pool(Then(r, s, run, d).accounts, count);
    InPoolExactly(Then(r, s, run, d).accounts, k, count);
  }

  /** A run continues from where its first part ends. */
  lemma {:induction false} RestOfRun(r: Rules, s: State, run: seq<Event>, j: nat, d: nat)
    requires Legal(r, s, run) && j <= d <= |run|
    ensures Legal(r, Then(r, s, run, j), run[j..d])
    ensures After(r, Then(r, s, run, j), run[j..d]) == Then(r, s, run, d)
    decreases d
  {
    hide Step, Enabled;
    if j == d {
      assert run[j..d] == [];
    } else {
      RestOfRun(r, s, run, j, d - 1);
      LegalPrefix(r, s, run, d - 1);
      assert run[j..d][..d - j - 1] == run[j..d - 1] && run[j..d][d - j - 1] == run[d - 1];
      assert run[..d - 1 + 1] == run[..d];
    }
  }
}
