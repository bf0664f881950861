/** The master rows, the account table and the calls in flight, updated in place
    (api/business_masters.py).  Each method is what one call does without yielding: one database
    session, or one step on its own variables. */
module BusinessMasters {
  import opened Basics
  import opened Decimal
  import opened Text
  import opened SeatCapacity
  import opened AdmissionGuard
  import opened InviteRuns

  class Masters {
    var rows: map<nat, Row>
    var accounts: seq<Account>
    // The local variables of the calls.
    var calls: seq<Call>

    constructor (rows: map<nat, Row>, accounts: seq<Account>)
      ensures View() == State(rows, accounts, [])
    {
      this.rows, this.accounts, this.calls := rows, accounts, [];
    }

    function View(): State
      reads this
    {
      State(rows, accounts, calls)
    }

    method SetPhase(i: nat, phase: Phase)
      requires i < |calls|
      modifies this`calls
      ensures calls == old(calls)[i := old(calls)[i].(phase := phase)]
    {
      calls := calls[i := calls[i].(phase := phase)];
    }

    /** The first session of `invite_with_master`, or of a computation on its own. */
    method BeginCall(r: Rules, master: nat, request: Option<Request>) returns (i: nat)
      modifies this`calls
      ensures View() == Step(r, old(View()), Begin(master, request))
      ensures i == |old(calls)| && i < |calls| && calls[i].master == master && calls[i].request == request
    {
      hide Strip;
      var phase;
      if master !in rows {
        phase := Finished(if request.Some? then Refused(404) else Failed(404));
      } else if request.None? {
        phase := if Strip(rows[master].cookie) == "" then Finished(Failed(400)) else Looking;
      } else if !rows[master].enabled || Strip(rows[master].cookie) == "" {
        phase := Finished(Refused(400));
      } else if request.value.ignoreGuard {
        phase := Admitted(Wanted(request.value.count));
      } else {
        phase := Looking;
      }
      i := |calls|;
      calls := calls + [Call(master, request, phase)];
    }

    /** The session of `_compute_workspace_stats` that reads plan and pause, after the remote reads
        and the clock; then its arithmetic. */
    method ReadStats(r: Rules, i: nat, now: int, hours: int, x: Reading) returns (c: Computed)
      requires Enabled(View(), Read(i, now, hours, x))
      modifies this`calls
      ensures View() == Step(r, old(View()), Read(i, now, hours, x))
      ensures c.room == Room(r, rows[calls[i].master].planSeats, x)
      ensures c.paused <==>
        Overflow(r, rows[calls[i].master].planSeats, x) || Active(rows[calls[i].master].pausedUntil, now)
      ensures c.paused ==> Active(c.next, now)
      ensures Active(rows[calls[i].master].pausedUntil, now) ==> c.next == rows[calls[i].master].pausedUntil
    {
      hide UpcomingSeats;
      var row := rows[calls[i].master];
      var seats := if x.invoice.Some? then UpcomingSeats(r, x.invoice.value) else None;
      var billing := if seats.Some? then seats.value else x.active;
      var plan := if row.planSeats > 0 then row.planSeats else billing;
      var used := x.active + (if x.pending.Some? then x.pending.value else 0);
      var overflow := billing > plan || used > plan;
      var until := if row.pausedUntil.Some? && row.pausedUntil.value > now then row.pausedUntil else None;
      if overflow && until.None? {
        until := Some(now + 3600 * Max(1, hours));
      }
      c := Computed(until, until.Some? && until.value > now, Max(0, plan - used));
      SetPhase(i, Counted(c));
    }

    /** The session that stores the pause; an invitation then decides on the computed numbers. */
    method WriteStats(r: Rules, i: nat)
      requires Enabled(View(), Write(i))
      modifies this`calls, this`rows
      ensures View() == Step(r, old(View()), Write(i))
      ensures rows[calls[i].master].pausedUntil == old(calls)[i].phase.c.next
    {
      var m, c, request := calls[i].master, calls[i].phase.c, calls[i].request;
      rows := rows[m := rows[m].(pausedUntil := c.next)];
      if request.None? {
        SetPhase(i, Finished(Refreshed));
      } else if c.paused {
        SetPhase(i, Finished(Refused(409)));
      } else if c.room <= 0 {
        SetPhase(i, Finished(Refused(409)));
      } else {
        SetPhase(i, Admitted(Min(Wanted(request.value.count), c.room)));
      }
    }

    /** The computation raised. */
    method FailStats(r: Rules, i: nat, code: nat)
      requires Enabled(View(), Fail(i, code))
      modifies this`calls
      ensures View() == Step(r, old(View()), Fail(i, code))
    {
      if calls[i].request.None? {
        SetPhase(i, Finished(Failed(code)));
      } else {
        SetPhase(i, Admitted(Wanted(calls[i].request.value.count)));
      }
    }

    /** `_invitable_pool`: stops as soon as `limit` accounts are found. */
    method InvitablePool(limit: nat) returns (pool: seq<Picked>)
      requires limit > 0
      ensures pool == Pool(accounts, limit)
    {
      hide Invitable, Pick, Invitables;
      pool := [];
      assert accounts[0..] == accounts;
      for i := 0 to |accounts|
        invariant |pool| < limit
        invariant pool + Invitables(accounts[i..]) == Invitables(accounts)
      {
        TakeOne(accounts, i);
        if Invitable(accounts[i]) {
          PrefixSum(pool, Pick(accounts[i]), Invitables(accounts[i + 1..]));
          pool := pool + [Pick(accounts[i])];
          if |pool| >= limit {
            return;
          }
        }
      }
      TakeNone(accounts[|accounts|..]);
    }

    method DrawPool(r: Rules, i: nat)
      requires Enabled(View(), Draw(i)) && calls[i].phase.count > 0
      modifies this`calls
      ensures View() == Step(r, old(View()), Draw(i))
    {
      hide Pool;
      var pool := InvitablePool(calls[i].phase.count);
      SetPhase(i, if pool == [] then Finished(NobodyToInvite) else Drawn(pool));
    }

    /** Batches of at most six go out; `reported` is what the remote side says it invited. */
    method SendBatches(r: Rules, i: nat, reported: seq<string>) returns (groups: seq<seq<Picked>>)
      requires Enabled(View(), Send(i, reported))
      modifies this`calls
      ensures View() == Step(r, old(View()), Send(i, reported))
      ensures Flatten(groups) == old(calls)[i].phase.pool
      ensures forall j :: 0 <= j < |groups| ==> 1 <= |groups[j]| <= 6 && (j < |groups| - 1 ==> |groups[j]| == 6)
    {
      hide InvitedIds, Batches, Flatten;
      var pool := calls[i].phase.pool;
      BatchesPartition(pool);
      groups := Batches(pool);
      SetPhase(i, Reported(pool, InvitedIds(pool, reported)));
    }

    /** The session that records the invited accounts. */
    method MarkInvited(r: Rules, i: nat)
      requires Enabled(View(), MarkSent(i))
      modifies this`calls, this`accounts
      ensures View() == Step(r, old(View()), MarkSent(i))
    {
      var m, pool, ids := calls[i].master, calls[i].phase.pool, calls[i].phase.ids;
      ghost var before := accounts;
      for k := 0 to |accounts|
        invariant |accounts| == |before| && calls == old(calls)
        invariant forall j :: 0 <= j < k ==> accounts[j] == Assigned(before[j], ids, m)
        invariant forall j :: k <= j < |accounts| ==> accounts[j] == before[j]
      {
        if accounts[k].id in ids {
          accounts := accounts[k := accounts[k].(status := "csv_uploaded", owner := Numeral(m))];
        }
      }
      assert accounts == Mark(before, ids, m);
      SetPhase(i, Finished(Marked(pool, ids)));
    }

    method Resume(r: Rules, master: nat)
      requires master in rows
      modifies this`rows
      ensures View() == Step(r, old(View()), ResumeBilling(master))
    {
      rows := rows[master := rows[master].(pausedUntil := None)];
    }
  }

  lemma TakeOne(accounts: seq<Account>, i: nat)
    requires i < |accounts|
    ensures Invitables(accounts[i..]) ==
      (if Invitable(accounts[i]) then [Pick(accounts[i])] else []) + Invitables(accounts[i + 1..])
  {
    hide Invitable, Pick;
    assert accounts[i..][1..] == accounts[i + 1..];
  }

  lemma TakeNone(accounts: seq<Account>)
    requires accounts == []
    ensures Invitables(accounts) == []
  {
  }

  lemma PrefixSum(a: seq<Picked>, x: Picked, b: seq<Picked>)
    ensures a + ([x] + b) == a + [x] + b
  {
  }
}
