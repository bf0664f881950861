/** From the report of an invitation to its record (api/business_masters.py): exactly the accounts
    whose addresses were reported are recorded, and the guard admits as many as fit. */
module InviteRecords {
  import opened Basics
  import opened Decimal
  import opened Text
  import opened SeatCapacity
  import opened AdmissionGuard
  import opened InviteRuns
  import opened InvitePauses

  // ---- reported addresses ---------------------------------------------------------------------------

  /** No two entries have the same address, and none is empty. */
  ghost predicate DistinctEntries(pool: seq<Picked>) {
    && (forall i :: 0 <= i < |pool| ==> pool[i].email != "")
    && forall i, j :: 0 <= i < j < |pool| ==> pool[i].email != pool[j].email
  }

  /** Some reported text is this address, but for case and surrounding blanks. */
  predicate Mentions(reported: seq<string>, email: string) {
    exists q :: 0 <= q < |reported| && Lower(Strip(reported[q])) == email
  }

  lemma {:induction false} IdOfEntry(pool: seq<Picked>, i: nat)
    requires i < |pool| && DistinctEntries(pool)
    ensures IdOf(pool, pool[i].email) == Some(pool[i].id)
  {
    var last := |pool| - 1;
    if i < last {
      assert pool[..last][i] == pool[i];
      IdOfEntry(pool[..last], i);
    }
  }

  lemma {:induction false} IdOfIsEntry(pool: seq<Picked>, email: string) returns (i: nat)
    requires IdOf(pool, email).Some?
    ensures i < |pool| && pool[i].email == email && IdOf(pool, email) == Some(pool[i].id)
  {
    i := |pool| - 1;
    if pool[i].email != email {
      i := IdOfIsEntry(pool[..i], email);
    }
  }

  /** An id is among the invited exactly when some reported text is the address of its entry:
      every report counts, wherever it stands in the list, and nothing else does. */
  lemma {:induction false} InvitedExactly(pool: seq<Picked>, reported: seq<string>, id: nat)
    requires DistinctEntries(pool)
    ensures id in InvitedIds(pool, reported) <==>
      exists i :: 0 <= i < |pool| && pool[i].id == id && Mentions(reported, pool[i].email)
  {
    hide Lower, Strip, IdOf, DistinctEntries;
    if |reported| > 0 {
      var email, rest := Lower(Strip(reported[0])), reported[1..];
      InvitedExactly(pool, rest, id);
      if id in InvitedIds(pool, reported) {
        if id in InvitedIds(pool, rest) {
          var i :| 0 <= i < |pool| && pool[i].id == id && Mentions(rest, pool[i].email);
          MentionsMore(reported, pool[i].email);
        } else {
          var i := IdOfIsEntry(pool, email);
          assert pool[i].id == id && Mentions(reported, pool[i].email);
        }
      }
      forall i | 0 <= i < |pool| && pool[i].id == id && Mentions(reported, pool[i].email)
        ensures id in InvitedIds(pool, reported)
      {
        if pool[i].email == email {
          IdOfEntry(pool, i);
          EntryIsNamed(pool, i);
        } else {
          MentionsRest(reported, pool[i].email);
        }
      }
    }
  }

  lemma EntryIsNamed(pool: seq<Picked>, i: nat)
    requires DistinctEntries(pool) && i < |pool|
    ensures pool[i].email != ""
  {
  }

  lemma MentionsMore(reported: seq<string>, email: string)
    requires |reported| > 0 && Mentions(reported[1..], email)
    ensures Mentions(reported, email)
  {
    hide Lower, Strip;
    var q :| 0 <= q < |reported[1..]| && Lower(Strip(reported[1..][q])) == email;
    assert reported[q + 1] == reported[1..][q];
  }

  lemma MentionsRest(reported: seq<string>, email: string)
    requires Mentions(reported, email) && Lower(Strip(reported[0])) != email
    ensures Mentions(reported[1..], email)
  {
    hide Lower, Strip;
    var q :| 0 <= q < |reported| && Lower(Strip(reported[q])) == email;
    assert reported[1..][q - 1] == reported[q];
  }

  // ---- pools --------------------------------------------------------------------------------------------

  function AddressOf(a: Account): string { Lower(Strip(a.email)) }

  /** No two accounts have the same address. */
  ghost predicate DistinctAddresses(accounts: seq<Account>) {
    forall i, j :: 0 <= i < j < |accounts| ==> AddressOf(accounts[i]) != AddressOf(accounts[j])
  }

  lemma LowerOfSome(s: string)
    ensures Lower(s) == "" <==> s == ""
  {
  }

  /** Every entry of a pool stands for an account, in the order of the table. */
  lemma {:induction false} EntriesArePicks(accounts: seq<Account>, i: nat) returns (k: nat)
    requires i < |Invitables(accounts)|
    ensures k < |accounts| && Invitable(accounts[k]) && Invitables(accounts)[i] == Pick(accounts[k])
    ensures |Invitables(accounts[..k])| == i
  {
    hide Invitable, Pick;
    var head := if Invitable(accounts[0]) then [Pick(accounts[0])] else [];
    if i < |head| {
      k := 0;
      assert accounts[..0] == [];
    } else {
      var l := EntriesArePicks(accounts[1..], i - |head|);
      k := l + 1;
      assert accounts[..k][1..] == accounts[1..][..l] && accounts[..k][0] == accounts[0];
    }
  }

  lemma PoolIsDistinct(accounts: seq<Account>, limit: nat)
    requires DistinctAddresses(accounts)
    ensures DistinctEntries(Pool(accounts, limit))
  {
    hide Lower, Strip, DistinctAddresses;
    var pool := Pool(accounts, limit);
    forall i | 0 <= i < |pool| ensures pool[i].email != "" {
      var k := EntriesArePicks(accounts, i);
      LowerOfSome(Strip(accounts[k].email));
    }
    forall i, j | 0 <= i < j < |pool| ensures pool[i].email != pool[j].email {
      var k := EntriesArePicks(accounts, i);
      var l := EntriesArePicks(accounts, j);
      DifferentAddresses(accounts, k, l);
    }
  }

  lemma DifferentAddresses(accounts: seq<Account>, k: nat, l: nat)
    requires DistinctAddresses(accounts) && k < |accounts| && l < |accounts| && k != l
    ensures AddressOf(accounts[k]) != AddressOf(accounts[l])
  {
    hide Lower, Strip;
  }

  /** The entry of an account carries its address. */
  lemma EntryOfAccount(accounts: seq<Account>, limit: nat, k: nat, i: nat)
    requires DistinctIds(accounts) && k < |accounts| && i < |Pool(accounts, limit)|
    requires Pool(accounts, limit)[i].id == accounts[k].id
    ensures Pool(accounts, limit)[i].email == AddressOf(accounts[k])
  {
    hide Lower, Strip;
    var l := EntriesArePicks(accounts, i);
    assert accounts[l].id == accounts[k].id;
    assert l == k;
  }

  // ---- over runs ----------------------------------------------------------------------------------------------

  lemma {:induction false} AccountsKeepAddresses(r: Rules, s: State, run: seq<Event>, k: nat)
    requires Legal(r, s, run) && k < |s.accounts|
    ensures |After(r, s, run).accounts| == |s.accounts|
    ensures After(r, s, run).accounts[k].email == s.accounts[k].email
    ensures After(r, s, run).accounts[k].id == s.accounts[k].id
  {
    hide Step, Enabled;
    if |run| > 0 {
      AccountsKeepAddresses(r, s, run[..|run| - 1], k);
      SameSize(r, After(r, s, run[..|run| - 1]), run[|run| - 1]);
      StepOnAccount(r, After(r, s, run[..|run| - 1]), run[|run| - 1], k);
    }
  }

  lemma AddressesStayDistinct(r: Rules, s: State, run: seq<Event>)
    requires Legal(r, s, run) && DistinctAddresses(s.accounts)
    ensures |After(r, s, run).accounts| == |s.accounts| && DistinctAddresses(After(r, s, run).accounts)
  {
    hide Step, Enabled, Lower, Strip;
    var t := After(r, s, run);
    if |s.accounts| > 0 {
      AccountsKeepAddresses(r, s, run, 0);
    } else {
      AccountsKeepIdsOfNone(r, s, run);
    }
    forall k: nat | k < |s.accounts| ensures t.accounts[k].email == s.accounts[k].email {
      AccountsKeepAddresses(r, s, run, k);
    }
  }

  lemma AccountsKeepIdsOfNone(r: Rules, s: State, run: seq<Event>)
    requires Legal(r, s, run) && s.accounts == []
    ensures After(r, s, run).accounts == []
  {
    AccountsKeepIds(r, s, run);
  }

  /** What a call has sent, and was told, stays with it until it is recorded. */
  lemma {:induction false} ReportStays(r: Rules, s: State, run: seq<Event>, i: nat)
    requires Legal(r, s, run) && i < |s.calls| && s.calls[i].phase.Reported?
    ensures var t, p := After(r, s, run), s.calls[i].phase;
      i < |t.calls| && t.calls[i].master == s.calls[i].master
      && (t.calls[i].phase == p || t.calls[i].phase == Finished(Marked(p.pool, p.ids)))
  {
    hide Step, Enabled;
    if |run| > 0 {
      ReportStays(r, s, run[..|run| - 1], i);
      ReportStep(r, After(r, s, run[..|run| - 1]), run[|run| - 1], i);
    }
  }

  lemma ReportStep(r: Rules, s: State, e: Event, i: nat)
    requires Enabled(s, e) && i < |s.calls|
      && (s.calls[i].phase.Reported? || (s.calls[i].phase.Finished? && s.calls[i].phase.end.Marked?))
    ensures var t := Step(r, s, e);
      i < |t.calls| && t.calls[i].master == s.calls[i].master
      && (t.calls[i].phase == s.calls[i].phase
          || (s.calls[i].phase.Reported?
              && t.calls[i].phase == Finished(Marked(s.calls[i].phase.pool, s.calls[i].phase.ids))))
  {
    hide Compute, Decide, Wanted, Pool, InvitedIds, Mark, Unassign, FirstPhase;
  }

  /** The pool that call `i` is about to send. */
  ghost function Sends(r: Rules, s: State, run: seq<Event>, m: nat): seq<Picked>
    requires Legal(r, s, run) && m < |run|
  {
    var t := Then(r, s, run, m);
    if run[m].Send? && InFlight(t, run[m].i) && t.calls[run[m].i].phase.Drawn? then t.calls[run[m].i].phase.pool else []
  }

  /** A drawn pool has distinct entries, each with the address of its account. */
  lemma DrawnPoolIsSound(r: Rules, s: State, run: seq<Event>, i: nat, k: nat)
    requires Legal(r, s, run) && s.calls == [] && DistinctIds(s.accounts) && DistinctAddresses(s.accounts)
    requires i < |After(r, s, run).calls| && k < |s.accounts|
    ensures var pool := PoolOf(After(r, s, run).calls[i].phase);
      DistinctEntries(pool)
      && forall x :: 0 <= x < |pool| && pool[x].id == s.accounts[k].id ==> pool[x].email == AddressOf(s.accounts[k])
  {
    hide Step, Enabled, Pool, PoolOf, Lower, Strip, DistinctAddresses, DistinctIds, DistinctEntries;
    var pool := PoolOf(After(r, s, run).calls[i].phase);
    if pool != [] {
      EveryPoolWasDrawn(r, s, run, i);
      var d: nat :| DrewAt(r, s, run, i, d, pool);
      var t := Then(r, s, run, d);
      LegalPrefix(r, s, run, d);
      AddressesStayDistinct(r, s, run[..d]);
      AccountsKeepIds(r, s, run[..d]);
      AccountsKeepAddresses(r, s, run[..d], k);
      var count :| pool == Pool(t.accounts, count);
      PoolIsDistinct(t.accounts, count);
      forall x | 0 <= x < |pool| && pool[x].id == s.accounts[k].id ensures pool[x].email == AddressOf(s.accounts[k]) {
        EntryOfAccount(t.accounts, count, k, x);
      }
    } else {
      NoEntries();
    }
  }

  lemma NoEntries()
    ensures DistinctEntries([])
  {
  }

  /** Over every interleaving: the record of an invitation takes exactly the accounts that were
      sent and whose address the report mentions - each becomes this master's and is in no later
      pool - and no other account is touched. */
  lemma RecordsExactlyTheReported(r: Rules, s: State, run: seq<Event>, k: nat, m: nat, j: nat)
    requires Legal(r, s, run) && s.calls == [] && DistinctIds(s.accounts) && DistinctAddresses(s.accounts)
    requires k < |s.accounts| && m < j < |run| && run[m].Send? && run[j] == MarkSent(run[m].i)
    ensures var (before, after) := (Then(r, s, run, j), Then(r, s, run, j + 1));
      && |before.accounts| == |after.accounts| == |s.accounts| && run[m].i < |before.calls|
      && if InPool(Sends(r, s, run, m), s.accounts[k].id) && Mentions(run[m].reported, AddressOf(s.accounts[k]))
         then after.accounts[k] == before.accounts[k].(
                status := "csv_uploaded", owner := Numeral(before.calls[run[m].i].master))
         else after.accounts[k] == before.accounts[k]
  {
    hide Step, Enabled, Pool, PoolOf, Lower, Strip, InPool, Mentions, InvitedIds, DistinctAddresses;
    var i, id := run[m].i, s.accounts[k].id;
    LegalPrefix(r, s, run, m);
    LegalPrefix(r, s, run, j);
    var t := Then(r, s, run, m);
    SendReports(r, t, run[m]);
    RestOfRun(r, s, run, m + 1, j);
    ReportStays(r, Then(r, s, run, m + 1), run[m + 1..j], i);
    MarkFindsReport(Then(r, s, run, j), run[j]);
    DrawnPoolIsSound(r, s, run[..m], i, k);
    InvitedExactly(t.calls[i].phase.pool, run[m].reported, id);
    AccountsKeepAddresses(r, s, run[..j], k);
    StepOnAccount(r, Then(r, s, run, j), run[j], k);
    SameSize(r, Then(r, s, run, j), run[j]);
    RecordedMeans(t.calls[i].phase.pool, run[m].reported, id, AddressOf(s.accounts[k]));
  }

  lemma SendReports(r: Rules, s: State, e: Event)
    requires e.Send? && Enabled(s, e)
    ensures e.i < |s.calls| && s.calls[e.i].phase.Drawn? && e.i < |Step(r, s, e).calls|
    ensures var pool := s.calls[e.i].phase.pool;
      InFlight(s, e.i) && PoolOf(s.calls[e.i].phase) == pool
      && Step(r, s, e).calls[e.i] == s.calls[e.i].(phase := Reported(pool, InvitedIds(pool, e.reported)))
  {
    hide InvitedIds;
  }

  lemma MarkFindsReport(s: State, e: Event)
    requires e.MarkSent? && Enabled(s, e)
    ensures e.i < |s.calls| && s.calls[e.i].phase.Reported?
    ensures forall id: nat :: MarksId(s, e, id) <==> id in s.calls[e.i].phase.ids
  {
  }

  lemma RecordedMeans(pool: seq<Picked>, reported: seq<string>, id: nat, email: string)
    requires forall x :: 0 <= x < |pool| && pool[x].id == id ==> pool[x].email == email
    requires id in InvitedIds(pool, reported) <==>
      exists x :: 0 <= x < |pool| && pool[x].id == id && Mentions(reported, pool[x].email)
    ensures id in InvitedIds(pool, reported) <==> InPool(pool, id) && Mentions(reported, email)
  {
    hide InvitedIds, Mentions;
  }

  // ---- how much the guard admits ----------------------------------------------------------------------------------

  /** On a full reading: an invitation is refused exactly from a workspace that is paused, billed
      for more seats than its plan, or full; otherwise it is admitted for as many as were asked for
      - at least one, at most five hundred - or as many as the plan still holds, whichever is less. */
  lemma AdmitsAsMuchAsFits(
      r: Rules, planSeats: int, pausedUntil: Option<int>, now: int, hours: int, x: Reading, count: int)
    requires x.pending.Some?
    ensures var seats := if x.invoice.Some? then UpcomingSeats(r, x.invoice.value) else None;
      var billed := if seats.Some? then seats.value else x.active;
      var plan := if planSeats > 0 then planSeats else billed;
      var free := plan - x.active - x.pending.value;
      var asked := if count > 500 then 500 else if count < 1 then 1 else count;
      var paused := pausedUntil.Some? && pausedUntil.value > now;
      Decide(Compute(r, planSeats, pausedUntil, now, hours, x), Wanted(count))
      == if paused || billed > plan || free <= 0 then Refuse(409) else Admit(if asked < free then asked else free)
  {
    hide UpcomingSeats;
  }

  /** The pause after a computation: one that is active stays; otherwise there is one exactly when
      more seats are billed or in use than planned, and it ends the configured hours later, at
      least one. */
  lemma PauseIs(r: Rules, planSeats: int, pausedUntil: Option<int>, now: int, hours: int, x: Reading)
    ensures var seats := if x.invoice.Some? then UpcomingSeats(r, x.invoice.value) else None;
      var billed := if seats.Some? then seats.value else x.active;
      var plan := if planSeats > 0 then planSeats else billed;
      var used := x.active + if x.pending.Some? then x.pending.value else 0;
      Compute(r, planSeats, pausedUntil, now, hours, x).next
      == if pausedUntil.Some? && pausedUntil.value > now then pausedUntil
         else if billed > plan || used > plan then Some(now + 3600 * (if hours < 1 then 1 else hours))
         else None
  {
    hide UpcomingSeats;
  }

  /** Resuming lifts the pause of this master and of no other. */
  lemma ResumingLifts(r: Rules, s: State, m: nat, other: nat)
    requires m in s.rows && other in s.rows
    ensures var t := Step(r, s, ResumeBilling(m));
      && t.rows.Keys == s.rows.Keys && t.accounts == s.accounts && t.calls == s.calls
      && t.rows[other].pausedUntil == (if other == m then None else s.rows[other].pausedUntil)
      && t.rows[other].planSeats == s.rows[other].planSeats && t.rows[other].enabled == s.rows[other].enabled
  {
  }

  /** How an invitation begins: it is turned away without a master, or without an enabled one that
      has a cookie; it is guarded unless it asks not to be. */
  lemma BeginsGuarded(r: Rules, s: State, m: nat, q: Request)
    ensures var phase := Step(r, s, Begin(m, Some(q))).calls[|s.calls|].phase;
      && (phase == Finished(Refused(404)) <==> m !in s.rows)
      && (phase == Finished(Refused(400)) <==>
            m in s.rows && !(s.rows[m].enabled && Strip(s.rows[m].cookie) != ""))
      && (phase.Looking? <==>
            m in s.rows && s.rows[m].enabled && Strip(s.rows[m].cookie) != "" && !q.ignoreGuard)
      && (phase.Admitted? <==> m in s.rows && s.rows[m].enabled && Strip(s.rows[m].cookie) != "" && q.ignoreGuard)
      && (phase.Admitted? ==> phase.count == if q.count > 500 then 500 else if q.count < 1 then 1 else q.count)
  {
    hide Strip;
  }
}
