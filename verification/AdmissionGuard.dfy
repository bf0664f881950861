/** The billing guard in front of workspace invitations: stored pause, seat room, and the
    batches that are sent (api/business_masters.py). */
module AdmissionGuard {
  import opened Basics
  import opened Decimal
  import opened Text
  import opened SeatCapacity

  /** A sub-account; `owner` is the master it is assigned to, blank when there is none. */
  datatype Account = Account(id: nat, email: string, status: string, owner: string)

  datatype Picked = Picked(id: nat, email: string)

  /** One look at the workspace.  `pending` is absent when the invites endpoint failed,
      `invoice` when there is no readable upcoming invoice. */
  datatype Reading = Reading(active: nat, pending: Option<int>, invoice: Option<Json>)

  // ---- seat arithmetic --------------------------------------------------------------------------

  function Billing(r: Rules, x: Reading): nat {
    var seats := if x.invoice.Some? then UpcomingSeats(r, x.invoice.value) else None;
    if seats.Some? then seats.value else x.active
  }

  function Plan(r: Rules, planSeats: int, x: Reading): nat {
    if planSeats > 0 then planSeats else Billing(r, x)
  }

  function Used(x: Reading): int {
    x.active + if x.pending.Some? then x.pending.value else 0
  }

  function Room(r: Rules, planSeats: int, x: Reading): nat {
    if Plan(r, planSeats, x) > Used(x) then Plan(r, planSeats, x) - Used(x) else 0
  }

  predicate Overflow(r: Rules, planSeats: int, x: Reading) {
    Billing(r, x) > Plan(r, planSeats, x) || Used(x) > Plan(r, planSeats, x)
  }

  function Max(a: int, b: int): int { if a > b then a else b }
  function Min(a: int, b: int): int { if a < b then a else b }

  predicate Active(pausedUntil: Option<int>, now: int) {
    pausedUntil.Some? && pausedUntil.value > now
  }

  /** The pause that is stored after one computation. */
  function NextPause(
      r: Rules, planSeats: int, pausedUntil: Option<int>, now: int, hours: int, x: Reading): Option<int> {
    if Active(pausedUntil, now) then pausedUntil
    else if Overflow(r, planSeats, x) then Some(now + 3600 * Max(1, hours))
    else None
  }

  /** What one computation hands on: the pause it will store, whether it counts as paused, and the
      free seats. */
  datatype Computed = Computed(next: Option<int>, paused: bool, room: nat)

  /** `_compute_workspace_stats`, from the plan and the pause it read. */
  function Compute(r: Rules, planSeats: int, pausedUntil: Option<int>, now: int, hours: int, x: Reading): Computed {
    var next := NextPause(r, planSeats, pausedUntil, now, hours, x);
    Computed(next, Active(next, now), Room(r, planSeats, x))
  }

  // ---- admission ------------------------------------------------------------------------------------

  datatype Request = Request(count: int, ignoreGuard: bool)

  datatype Decision = Refuse(code: nat) | Admit(count: nat)

  /** `max(1, min(int(count or 1), 500))`. */
  function Wanted(count: int): (n: nat)
    ensures 1 <= n <= 500
  {
    Max(1, Min(if count == 0 then 1 else count, 500))
  }

  /** What the guard decides on computed statistics. */
  function Decide(c: Computed, wanted: nat): Decision {
    if c.paused || c.room == 0 then Refuse(409) else Admit(Min(wanted, c.room))
  }

  /** What the guard decides on what it could read: a computation that raised is no limit. */
  function GuardDecides(r: Rules, planSeats: int, pausedUntil: Option<int>, now: int, hours: int,
                        read: Result<Reading, nat>, wanted: nat): Decision
  {
    if read.Err? then Admit(wanted) else Decide(Compute(r, planSeats, pausedUntil, now, hours, read.value), wanted)
  }

  // ---- pool and batches ---------------------------------------------------------------------------------

  predicate Invitable(a: Account) {
    Strip(a.owner) == "" && (a.status == "registered" || a.status == "csv_exported") && Strip(a.email) != ""
  }

  function Pick(a: Account): Picked { Picked(a.id, Lower(Strip(a.email))) }

  function Invitables(accounts: seq<Account>): seq<Picked> {
    if |accounts| == 0 then []
    else (if Invitable(accounts[0]) then [Pick(accounts[0])] else []) + Invitables(accounts[1..])
  }

  function Pool(accounts: seq<Account>, limit: nat): seq<Picked> {
    var all := Invitables(accounts);
    if |all| <= limit then all else all[..limit]
  }

  /** At most six addresses go into one call. */
  function Batches(pool: seq<Picked>): seq<seq<Picked>> {
    if |pool| == 0 then [] else if |pool| <= 6 then [pool] else [pool[..6]] + Batches(pool[6..])
  }

  function Flatten(groups: seq<seq<Picked>>): seq<Picked> {
    if |groups| == 0 then [] else groups[0] + Flatten(groups[1..])
  }

  // ---- bookkeeping after sending ----------------------------------------------------------------------------

  /** `email_to_id`: the last pool entry with that address. */
  function IdOf(pool: seq<Picked>, email: string): Option<nat> {
    if |pool| == 0 then None
    else if pool[|pool| - 1].email == email then Some(pool[|pool| - 1].id)
    else IdOf(pool[..|pool| - 1], email)
  }

  /** The ids of the reported addresses that were in the pool. */
  function InvitedIds(pool: seq<Picked>, reported: seq<string>): seq<nat> {
    if |reported| == 0 then []
    else
      var email := Lower(Strip(reported[0]));
      (if email != "" && IdOf(pool, email).Some? then [IdOf(pool, email).value] else [])
      + InvitedIds(pool, reported[1..])
  }

  function Assigned(a: Account, ids: seq<nat>, master: nat): Account {
    if a.id in ids then a.(status := "csv_uploaded", owner := Numeral(master)) else a
  }

  function Mark(accounts: seq<Account>, ids: seq<nat>, master: nat): (r: seq<Account>)
    ensures |r| == |accounts|
    ensures forall i :: 0 <= i < |r| ==> r[i] == Assigned(accounts[i], ids, master)
  {
    seq(|accounts|, i requires 0 <= i < |accounts| => Assigned(accounts[i], ids, master))
  }

  // ---- batches partition the pool ---------------------------------------------------------------

  /** Cutting into batches loses, repeats and reorders nothing; only the last batch is short. */
  lemma {:induction false} BatchesPartition(pool: seq<Picked>)
    ensures Flatten(Batches(pool)) == pool
    ensures forall i :: 0 <= i < |Batches(pool)| ==>
      1 <= |Batches(pool)[i]| <= 6 && (i < |Batches(pool)| - 1 ==> |Batches(pool)[i]| == 6)
    ensures |Batches(pool)| == (|pool| + 5) / 6
  {
    if 0 < |pool| <= 6 {
      assert Flatten([pool]) == pool + Flatten([]);
    } else if |pool| > 6 {
      BatchesPartition(pool[6..]);
      assert Batches(pool)[1..] == Batches(pool[6..]);
      assert |Batches(pool[6..])| > 0;
    }
  }

  // ---- the seat promise -------------------------------------------------------------------------

  lemma PoolSize(accounts: seq<Account>, limit: nat)
    ensures |Pool(accounts, limit)| <= limit
  {
  }

  /** How many addresses an admitted call sends, whatever the table holds when it draws. */
  function SentTo(accounts: seq<Account>, count: nat): nat { |Flatten(Batches(Pool(accounts, count)))| }

  /** With everything readable: members, pending invitations and the addresses sent on this
      admission fit the plan, and nothing is admitted from an overflowing or paused workspace. */
  lemma GuardKeepsThePlan(
      r: Rules, planSeats: int, pausedUntil: Option<int>, now: int, hours: int, x: Reading, wanted: nat,
      accounts: seq<Account>)
    requires x.pending.Some? && Decide(Compute(r, planSeats, pausedUntil, now, hours, x), wanted).Admit?
    ensures var count := Decide(Compute(r, planSeats, pausedUntil, now, hours, x), wanted).count;
      && x.active + x.pending.value + SentTo(accounts, count) <= Plan(r, planSeats, x)
      && Billing(r, x) <= Plan(r, planSeats, x) && !Active(pausedUntil, now)
  {
    hide UpcomingSeats, Pool, Batches, Flatten;
    var count := Decide(Compute(r, planSeats, pausedUntil, now, hours, x), wanted).count;
    PoolSize(accounts, count);
    BatchesPartition(Pool(accounts, count));
  }

  /** The workspace as it really is. */
  datatype Truth = Truth(active: nat, pending: int, plan: nat)

  /** What a look leaves open. */
  predicate Consistent(r: Rules, planSeats: int, read: Result<Reading, nat>, t: Truth) {
    (planSeats > 0 ==> t.plan == planSeats) &&
    (read.Ok? ==>
       t.active == read.value.active && t.plan == Plan(r, planSeats, read.value)
       && (read.value.pending.Some? ==> t.pending == read.value.pending.value))
  }

  /** The guard fails open: a computation that raised is treated as no limit, and an unreadable
      invites endpoint as no pending invitation.  Sending is safe in every workspace that fits
      the look exactly when both could be read. */
  lemma GuardIsSoundExactlyWhenRead(
      r: Rules, planSeats: int, pausedUntil: Option<int>, now: int, hours: int, read: Result<Reading, nat>, wanted: nat,
      accounts: seq<Account>)
    requires GuardDecides(r, planSeats, pausedUntil, now, hours, read, wanted).Admit?
    requires SentTo(accounts, GuardDecides(r, planSeats, pausedUntil, now, hours, read, wanted).count) > 0
    ensures var sent := SentTo(accounts, GuardDecides(r, planSeats, pausedUntil, now, hours, read, wanted).count);
      (forall t: Truth :: Consistent(r, planSeats, read, t) ==> t.active + t.pending + sent <= t.plan)
      <==> read.Ok? && read.value.pending.Some?
  {
    hide UpcomingSeats, SentTo;
    if read.Ok? && read.value.pending.Some? {
      GuardKeepsThePlan(r, planSeats, pausedUntil, now, hours, read.value, wanted, accounts);
    } else if read.Ok? {
      var plan := Plan(r, planSeats, read.value);
      assert Consistent(r, planSeats, read, Truth(read.value.active, plan, plan));
    } else {
      var plan: nat := if planSeats > 0 then planSeats else 0;
      assert Consistent(r, planSeats, read, Truth(0, plan, plan));
    }
  }

  /** The concrete cases: a plan of five seats, all taken, and one invitable account.  After a
      computation that raised, and after one that could not read the pending invitations, an
      address is sent although the plan is full. */
  lemma UnreadGuardOverfills(r: Rules)
    ensures var accounts := [Account(1, "a@x", "registered", "")];
      var failed, truth := Err(502), Truth(5, 0, 5);
      var blind, hidden := Ok(Reading(3, None, None)), Truth(3, 2, 5);
      && GuardDecides(r, 5, None, 0, 24, failed, 1) == Admit(1)
      && Consistent(r, 5, failed, truth) && truth.active + truth.pending + SentTo(accounts, 1) > truth.plan
      && GuardDecides(r, 5, None, 0, 24, blind, 1) == Admit(1)
      && Consistent(r, 5, blind, hidden) && hidden.active + hidden.pending + SentTo(accounts, 1) > hidden.plan
  {
    hide UpcomingSeats;
    OneAccountIsSent();
    hide SentTo;
  }

  lemma OneAccountIsSent()
    ensures SentTo([Account(1, "a@x", "registered", "")], 1) == 1
  {
    var a := Account(1, "a@x", "registered", "");
    assert Strip("") == "";
    TrimTwice("a@x", IsSpace);
    assert Invitable(a);
    assert [a][1..] == [] && Invitables([a]) == [Pick(a)];
    BatchesPartition(Pool([a], 1));
  }

  // ---- who is in the pool -----------------------------------------------------------------------

  predicate InPool(pool: seq<Picked>, id: nat) {
    exists i :: 0 <= i < |pool| && pool[i].id == id
  }

  lemma {:induction false} IdOfIsInPool(pool: seq<Picked>, email: string)
    ensures IdOf(pool, email).Some? ==> InPool(pool, IdOf(pool, email).value)
    ensures IdOf(pool, email).None? <==> forall i :: 0 <= i < |pool| ==> pool[i].email != email
  {
    if |pool| > 0 {
      var init, last := pool[..|pool| - 1], pool[|pool| - 1];
      IdOfIsInPool(init, email);
      if last.email == email {
        assert pool[|pool| - 1].id == last.id;
      } else if IdOf(init, email).Some? {
        var i :| 0 <= i < |init| && init[i].id == IdOf(init, email).value;
        assert pool[i].id == IdOf(pool, email).value;
      } else {
        forall i | 0 <= i < |pool| ensures pool[i].email != email {
          if i < |init| {
            assert init[i].email != email;
          }
        }
      }
    }
  }

  lemma {:induction false} InvitedAreInPool(pool: seq<Picked>, reported: seq<string>, id: nat)
    requires id in InvitedIds(pool, reported)
    ensures InPool(pool, id)
  {
    hide Lower, Strip, InPool, IdOf;
    var email := Lower(Strip(reported[0]));
    if email != "" && IdOf(pool, email) == Some(id) {
      IdOfIsInPool(pool, email);
    } else {
      InvitedAreInPool(pool, reported[1..], id);
    }
  }

  ghost predicate DistinctIds(accounts: seq<Account>) {
    forall i, j :: 0 <= i < j < |accounts| ==> accounts[i].id != accounts[j].id
  }

  lemma {:induction false} InvitablesSplit(accounts: seq<Account>, k: nat)
    requires k < |accounts|
    ensures Invitables(accounts) ==
      Invitables(accounts[..k]) + (if Invitable(accounts[k]) then [Pick(accounts[k])] else [])
        + Invitables(accounts[k + 1..])
  {
    hide Invitable, Pick;
    var a, tail := accounts[0], accounts[1..];
    var head := if Invitable(a) then [Pick(a)] else [];
    if k == 0 {
      assert accounts[..0] == [];
    } else {
      InvitablesSplit(tail, k - 1);
      assert tail[..k - 1] == accounts[..k][1..] && tail[k..] == accounts[k + 1..] && accounts[..k][0] == a;
      assert Invitables(accounts[..k]) == head + Invitables(tail[..k - 1]);
    }
  }

  lemma {:induction false} OthersOnly(accounts: seq<Account>, id: nat)
    requires forall i :: 0 <= i < |accounts| ==> accounts[i].id != id
    ensures forall i :: 0 <= i < |Invitables(accounts)| ==> Invitables(accounts)[i].id != id
  {
    if |accounts| > 0 {
      OthersOnly(accounts[1..], id);
    }
  }

  /** An account is drawn exactly when it is invitable and fewer than `limit` invitable accounts
      stand before it. */
  lemma InPoolExactly(accounts: seq<Account>, k: nat, limit: nat)
    requires k < |accounts| && DistinctIds(accounts)
    ensures InPool(Pool(accounts, limit), accounts[k].id) <==>
      Invitable(accounts[k]) && |Invitables(accounts[..k])| < limit
  {
    hide Invitable;
    var id := accounts[k].id;
    InvitablesSplit(accounts, k);
    OthersOnly(accounts[..k], id);
    OthersOnly(accounts[k + 1..], id);
    var all, n := Invitables(accounts), |Invitables(accounts[..k])|;
    hide Invitables;
    assert Invitable(accounts[k]) ==> all[n].id == id;
    forall i | 0 <= i < |all| && all[i].id == id ensures i == n && Invitable(accounts[k]) {}
    if Invitable(accounts[k]) && n < limit {
      assert Pool(accounts, limit)[n].id == id;
    }
  }
}
