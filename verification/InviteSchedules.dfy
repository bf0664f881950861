/** Concrete overlapping schedules that the routes allow (api/business_masters.py). */
module InviteSchedules {
  import opened Basics
  import opened Decimal
  import opened Text
  import opened SeatCapacity
  import opened AdmissionGuard
  import opened InviteRuns
  import opened InvitePauses

  /** The run leads from `s` to `t`. */
  ghost predicate Leads(r: Rules, s: State, run: seq<Event>, t: State) {
    Legal(r, s, run) && After(r, s, run) == t
  }

  lemma NoEvents(r: Rules, s: State)
    ensures Leads(r, s, [], s)
  {
  }

  lemma Extend(r: Rules, s: State, run: seq<Event>, t: State, e: Event)
    requires Leads(r, s, run, t) && Enabled(t, e)
    ensures Leads(r, s, run + [e], Step(r, t, e))
  {
    hide Step, Enabled;
    assert (run + [e])[..|run|] == run;
  }

  // ---- two masters, one account ---------------------------------------------------------------------

  function Row5(): Row { Row(true, "c", 5, None) }

  function Anna(owner: string): Account {
    Account(7, "a@x", if owner == "" then "registered" else "csv_uploaded", owner)
  }

  function PoolA(): seq<Picked> { [Picked(7, "a@x")] }

  /** One seat taken, nobody invited yet. */
  function Calm(): Reading { Reading(1, Some(0), None) }

  lemma CookieIsThere()
    ensures Strip("c") == "c" && Strip("") == "" && Strip("a@x") == "a@x" && Lower("a@x") == "a@x"
  {
    TrimTwice("c", IsSpace);
    TrimTwice("", IsSpace);
    TrimTwice("a@x", IsSpace);
  }

  lemma AnnaIsDrawn()
    ensures Pool([Anna("")], 1) == PoolA() && InvitedIds(PoolA(), ["a@x"]) == [7]
  {
    CookieIsThere();
    hide Strip, Lower;
    assert [Anna("")][1..] == [] && Invitables([Anna("")]) == [Pick(Anna(""))];
    assert ["a@x"][1..] == [] && InvitedIds(PoolA(), []) == [];
    assert IdOf(PoolA(), "a@x") == Some(7);
  }

  lemma AnnaIsMarked(m: nat, owner: string)
    ensures Mark([Anna(owner)], [7], m) == [Account(7, "a@x", "csv_uploaded", Numeral(m))]
  {
  }

  lemma CalmIsFine(r: Rules)
    ensures Compute(r, 5, None, 0, 24, Calm()) == Computed(None, false, 4)
    ensures Decide(Computed(None, false, 4), Wanted(1)) == Admit(1)
  {
    hide UpcomingSeats;
  }

  /** Both masters read, store and are admitted, then both draw before either records. */
  function Admissions(): seq<Event> {
    [Begin(1, Some(Request(1, false))), Begin(2, Some(Request(1, false))),
     Read(0, 0, 24, Calm()), Write(0), Read(1, 0, 24, Calm()), Write(1)]
  }

  function TwoMasters(accounts: seq<Account>, a: Phase, b: Phase): State {
    State(map[1 := Row5(), 2 := Row5()], accounts,
          [Call(1, Some(Request(1, false)), a), Call(2, Some(Request(1, false)), b)])
  }

  function Nobody(): State { State(map[1 := Row5(), 2 := Row5()], [Anna("")], []) }

  lemma BeginOne(r: Rules, s: State, m: nat)
    requires m in s.rows && s.rows[m] == Row5()
    ensures var e := Begin(m, Some(Request(1, false)));
      Enabled(s, e) && Step(r, s, e) == s.(calls := s.calls + [Call(m, Some(Request(1, false)), Looking)])
  {
    CookieIsThere();
    hide Strip, Numeral;
  }

  lemma BeginBoth(r: Rules)
    ensures Leads(r, Nobody(), [Begin(1, Some(Request(1, false))), Begin(2, Some(Request(1, false)))],
                  TwoMasters([Anna("")], Looking, Looking))
  {
    var q, s := Some(Request(1, false)), Nobody();
    var s1 := s.(calls := [Call(1, q, Looking)]);
    BeginOne(r, s, 1);
    BeginOne(r, s1, 2);
    hide Step, Enabled, Leads, Numeral;
    NoEvents(r, s);
    Extend(r, s, [], s, Begin(1, q));
    assert [] + [Begin(1, q)] == [Begin(1, q)];
    Extend(r, s, [Begin(1, q)], s1, Begin(2, q));
    assert [Begin(1, q)] + [Begin(2, q)] == [Begin(1, q), Begin(2, q)];
  }

  /** One guarded call reads and stores: it is admitted for one, the row stays as it is. */
  lemma ReadAndWrite(r: Rules, t: State, i: nat)
    requires InFlight(t, i) && t.calls[i].phase == Looking && t.calls[i].request == Some(Request(1, false))
    requires t.rows[t.calls[i].master] == Row5()
    ensures var a, b := Read(i, 0, 24, Calm()), Write(i);
      Enabled(t, a) && Enabled(Step(r, t, a), b)
      && Step(r, Step(r, t, a), b) == t.(calls := t.calls[i := t.calls[i].(phase := Admitted(1))])
  {
    CalmIsFine(r);
    hide Compute, Decide, Wanted;
    var u := t.(calls := t.calls[i := t.calls[i].(phase := Counted(Computed(None, false, 4)))]);
    assert Step(r, t, Read(i, 0, 24, Calm())) == u;
    assert u.rows[u.calls[i].master := u.rows[u.calls[i].master].(pausedUntil := None)] == u.rows;
  }

  lemma BothAreAdmitted(r: Rules)
    ensures Leads(r, Nobody(), Admissions(), TwoMasters([Anna("")], Admitted(1), Admitted(1)))
  {
    BeginBoth(r);
    var s, t := Nobody(), TwoMasters([Anna("")], Looking, Looking);
    var u := TwoMasters([Anna("")], Admitted(1), Looking);
    ReadAndWrite(r, t, 0);
    ReadAndWrite(r, u, 1);
    hide Leads, Step, Enabled, Calm, Anna, Row5;
    var begun := [Begin(1, Some(Request(1, false))), Begin(2, Some(Request(1, false)))];
    Extend(r, s, begun, t, Read(0, 0, 24, Calm()));
    Extend(r, s, begun + [Read(0, 0, 24, Calm())], Step(r, t, Read(0, 0, 24, Calm())), Write(0));
    var half := begun + [Read(0, 0, 24, Calm())] + [Write(0)];
    assert t.calls[0 := t.calls[0].(phase := Admitted(1))] == u.calls;
    assert Leads(r, s, half, u);
    Extend(r, s, half, u, Read(1, 0, 24, Calm()));
    Extend(r, s, half + [Read(1, 0, 24, Calm())], Step(r, u, Read(1, 0, 24, Calm())), Write(1));
    assert half + [Read(1, 0, 24, Calm())] + [Write(1)] == Admissions();
    assert u.calls[1 := u.calls[1].(phase := Admitted(1))] == TwoMasters([Anna("")], Admitted(1), Admitted(1)).calls;
  }

  /** Draw, send and record of one call, one at a time. */
  lemma DrawOne(r: Rules, t: State, i: nat)
    requires InFlight(t, i) && t.calls[i].phase == Admitted(1) && t.accounts == [Anna("")]
    ensures Enabled(t, Draw(i))
      && Step(r, t, Draw(i)) == t.(calls := t.calls[i := t.calls[i].(phase := Drawn(PoolA()))])
  {
    AnnaIsDrawn();
    hide Pool, InvitedIds;
  }

  lemma SendOne(r: Rules, t: State, i: nat)
    requires InFlight(t, i) && t.calls[i].phase == Drawn(PoolA())
    ensures var e := Send(i, ["a@x"]);
      Enabled(t, e) && Step(r, t, e) == t.(calls := t.calls[i := t.calls[i].(phase := Reported(PoolA(), [7]))])
  {
    AnnaIsDrawn();
    hide Pool, InvitedIds;
  }

  lemma MarkOne(r: Rules, t: State, i: nat, owner: string)
    requires InFlight(t, i) && t.calls[i].phase == Reported(PoolA(), [7]) && t.accounts == [Anna(owner)]
    ensures Enabled(t, MarkSent(i))
    ensures Step(r, t, MarkSent(i)) ==
      t.(accounts := [Anna(Numeral(t.calls[i].master))],
         calls := t.calls[i := t.calls[i].(phase := Finished(Marked(PoolA(), [7])))])
  {
    AnnaIsMarked(t.calls[i].master, owner);
    NumeralIsText(t.calls[i].master);
    hide Mark, Numeral;
  }

  lemma NumeralIsText(n: nat)
    ensures Numeral(n) != ""
  {
    assert IsNumeral(Numeral(n));
  }

  function Done(): Phase { Finished(Marked(PoolA(), [7])) }

  lemma FirstHalf(r: Rules)
    ensures Leads(r, Nobody(), Admissions() + [Draw(0)] + [Draw(1)] + [Send(0, ["a@x"])] + [MarkSent(0)],
                  TwoMasters([Anna(Numeral(1))], Done(), Drawn(PoolA())))
  {
    var s, base, out := Nobody(), Admissions(), Reported(PoolA(), [7]);
    BothAreAdmitted(r);
    var t0 := TwoMasters([Anna("")], Admitted(1), Admitted(1));
    var t1 := TwoMasters([Anna("")], Drawn(PoolA()), Admitted(1));
    var t2 := TwoMasters([Anna("")], Drawn(PoolA()), Drawn(PoolA()));
    var t3 := TwoMasters([Anna("")], out, Drawn(PoolA()));
    var t4 := TwoMasters([Anna(Numeral(1))], Done(), Drawn(PoolA()));
    DrawOne(r, t0, 0);
    DrawOne(r, t1, 1);
    SendOne(r, t2, 0);
    MarkOne(r, t3, 0, "");
    hide Leads, Step, Enabled, Calm, Anna, Row5, Numeral, PoolA, Admissions;
    assert t0.calls[0 := t0.calls[0].(phase := Drawn(PoolA()))] == t1.calls;
    assert t1.calls[1 := t1.calls[1].(phase := Drawn(PoolA()))] == t2.calls;
    assert t2.calls[0 := t2.calls[0].(phase := out)] == t3.calls;
    assert t3.calls[0 := t3.calls[0].(phase := Done())] == t4.calls;
    Extend(r, s, base, t0, Draw(0));
    Extend(r, s, base + [Draw(0)], t1, Draw(1));
    Extend(r, s, base + [Draw(0)] + [Draw(1)], t2, Send(0, ["a@x"]));
    Extend(r, s, base + [Draw(0)] + [Draw(1)] + [Send(0, ["a@x"])], t3, MarkSent(0));
  }

  /** Both guards are on, both readings are fine, and the two invitations overlap between draw and
      record: the same address goes out for both workspaces, after the first invitation has
      already been recorded, and the second record overwrites the first. */
  lemma OverlappingInvitesShareAnAccount(r: Rules)
    ensures var first := Admissions() + [Draw(0)] + [Draw(1)] + [Send(0, ["a@x"])] + [MarkSent(0)];
      && Leads(r, Nobody(), first, TwoMasters([Anna(Numeral(1))], Done(), Drawn(PoolA())))
      && Leads(r, Nobody(), first + [Send(1, ["a@x"])] + [MarkSent(1)], TwoMasters([Anna(Numeral(2))], Done(), Done()))
  {
    FirstHalf(r);
    var first := Admissions() + [Draw(0)] + [Draw(1)] + [Send(0, ["a@x"])] + [MarkSent(0)];
    var t4 := TwoMasters([Anna(Numeral(1))], Done(), Drawn(PoolA()));
    var t5 := TwoMasters([Anna(Numeral(1))], Done(), Reported(PoolA(), [7]));
    SendOne(r, t4, 1);
    MarkOne(r, t5, 1, Numeral(1));
    hide Leads, Step, Enabled, Anna, Row5, Numeral, PoolA, Admissions;
    assert t4.calls[1 := t4.calls[1].(phase := Reported(PoolA(), [7]))] == t5.calls;
    assert t5.calls[1 := t5.calls[1].(phase := Done())] == TwoMasters([Anna(Numeral(2))], Done(), Done()).calls;
    Extend(r, Nobody(), first, t4, Send(1, ["a@x"]));
    Extend(r, Nobody(), first + [Send(1, ["a@x"])], t5, MarkSent(1));
  }

  // ---- one master, two computations -----------------------------------------------------------------------

  /** Six members on five seats. */
  function Crowded(): Reading { Reading(6, Some(0), None) }

  function Lone(pausedUntil: Option<int>, calls: seq<Call>): State {
    State(map[1 := Row(true, "c", 5, pausedUntil)], [], calls)
  }

  lemma CrowdedPauses(r: Rules)
    ensures Compute(r, 5, None, 10, 24, Crowded()) == Computed(Some(86410), true, 0)
  {
    hide UpcomingSeats;
  }

  /** A computation that read a calm workspace stores its "no pause" after another one has stored
      a pause of a day: the pause is gone ten seconds after it began. */
  lemma OverlappingComputationClearsThePause(r: Rules)
    ensures var s := Lone(None, [Call(1, None, Looking), Call(1, None, Looking)]);
      var run := [Read(0, 0, 24, Calm())] + [Read(1, 10, 24, Crowded())] + [Write(1)];
      && Leads(r, s, run,
        Lone(Some(86410), [Call(1, None, Counted(Computed(None, false, 4))), Call(1, None, Finished(Refreshed))]))
      && Leads(r, s, run + [Write(0)],
               Lone(None, [Call(1, None, Finished(Refreshed)), Call(1, None, Finished(Refreshed))]))
  {
    var look, done := Call(1, None, Looking), Call(1, None, Finished(Refreshed));
    var calm := Call(1, None, Counted(Computed(None, false, 4)));
    var crowd := Call(1, None, Counted(Computed(Some(86410), true, 0)));
    var s0, s1, s2 := Lone(None, [look, look]), Lone(None, [calm, look]), Lone(None, [calm, crowd]);
    var s3, s4 := Lone(Some(86410), [calm, done]), Lone(None, [done, done]);
    var a, b := Read(0, 0, 24, Calm()), Read(1, 10, 24, Crowded());
    ReadSteps(r);
    WriteSteps(r);
    hide Leads, Step, Enabled, Calm, Crowded;
    NoEvents(r, s0);
    Extend(r, s0, [], s0, a);
    assert [] + [a] == [a];
    Extend(r, s0, [a], s1, b);
    Extend(r, s0, [a] + [b], s2, Write(1));
    Extend(r, s0, [a] + [b] + [Write(1)], s3, Write(0));
  }

  lemma ReadSteps(r: Rules)
    ensures var look, calm := Call(1, None, Looking), Call(1, None, Counted(Computed(None, false, 4)));
      var crowd := Call(1, None, Counted(Computed(Some(86410), true, 0)));
      var s0, s1, s2 := Lone(None, [look, look]), Lone(None, [calm, look]), Lone(None, [calm, crowd]);
      && Enabled(s0, Read(0, 0, 24, Calm())) && Step(r, s0, Read(0, 0, 24, Calm())) == s1
      && Enabled(s1, Read(1, 10, 24, Crowded())) && Step(r, s1, Read(1, 10, 24, Crowded())) == s2
  {
    CalmIsFine(r);
    CrowdedPauses(r);
    hide Compute;
    var look, calm := Call(1, None, Looking), Call(1, None, Counted(Computed(None, false, 4)));
    var crowd := Call(1, None, Counted(Computed(Some(86410), true, 0)));
    assert [look, look][0 := calm] == [calm, look] && [calm, look][1 := crowd] == [calm, crowd];
  }

  lemma WriteSteps(r: Rules)
    ensures var calm, done := Call(1, None, Counted(Computed(None, false, 4))), Call(1, None, Finished(Refreshed));
      var crowd := Call(1, None, Counted(Computed(Some(86410), true, 0)));
      var s2, s3, s4 := Lone(None, [calm, crowd]), Lone(Some(86410), [calm, done]), Lone(None, [done, done]);
      && Enabled(s2, Write(1)) && Step(r, s2, Write(1)) == s3
      && Enabled(s3, Write(0)) && Step(r, s3, Write(0)) == s4
  {
    hide Compute, Decide;
    var calm, done := Call(1, None, Counted(Computed(None, false, 4))), Call(1, None, Finished(Refreshed));
    var crowd := Call(1, None, Counted(Computed(Some(86410), true, 0)));
    assert [calm, crowd][1 := done] == [calm, done] && [calm, done][0 := done] == [done, done];
    var m := map[1 := Row(true, "c", 5, None)];
    assert m[1 := Row(true, "c", 5, Some(86410))] == map[1 := Row(true, "c", 5, Some(86410))];
    assert map[1 := Row(true, "c", 5, Some(86410))][1 := Row(true, "c", 5, None)] == m;
  }

  // ---- a guard that could not read ------------------------------------------------------------------------------

  function Full(calls: seq<Call>): State { State(map[1 := Row5()], [Anna("")], calls) }

  /** A whole invitation with the guard on, in a workspace whose five seats are taken: the
      statistics raise, and one address is sent. */
  lemma FailedComputationOverfills(r: Rules)
    ensures var q := Some(Request(1, false));
      var run := [Begin(1, q)] + [Fail(0, 502)] + [Draw(0)] + [Send(0, ["a@x"])];
      var truth := Truth(5, 0, 5);
      && Leads(r, Full([]), run, Full([Call(1, q, Reported(PoolA(), [7]))]))
      && Consistent(r, Row5().planSeats, Err(502), truth)
      && truth.active + truth.pending + |Flatten(Batches(PoolA()))| > truth.plan
  {
    var q := Some(Request(1, false));
    var s0, s1, s2 := Full([]), Full([Call(1, q, Looking)]), Full([Call(1, q, Admitted(1))]);
    var s3 := Full([Call(1, q, Drawn(PoolA()))]);
    BatchesPartition(PoolA());
    BeginOne(r, s0, 1);
    FailOne(r, s1);
    DrawOne(r, s2, 0);
    SendOne(r, s3, 0);
    hide Leads, Step, Enabled, Anna, Row5, Batches, Flatten;
    NoEvents(r, s0);
    Extend(r, s0, [], s0, Begin(1, q));
    assert [] + [Begin(1, q)] == [Begin(1, q)];
    assert s0.calls + [Call(1, q, Looking)] == s1.calls;
    Extend(r, s0, [Begin(1, q)], s1, Fail(0, 502));
    Extend(r, s0, [Begin(1, q)] + [Fail(0, 502)], s2, Draw(0));
    assert s2.calls[0 := s2.calls[0].(phase := Drawn(PoolA()))] == s3.calls;
    Extend(r, s0, [Begin(1, q)] + [Fail(0, 502)] + [Draw(0)], s3, Send(0, ["a@x"]));
    assert s3.calls[0 := s3.calls[0].(phase := Reported(PoolA(), [7]))] == [Call(1, q, Reported(PoolA(), [7]))];
  }

  lemma FailOne(r: Rules, s: State)
    requires s == Full([Call(1, Some(Request(1, false)), Looking)])
    ensures Enabled(s, Fail(0, 502))
      && Step(r, s, Fail(0, 502)) == Full([Call(1, Some(Request(1, false)), Admitted(1))])
  {
    assert s.calls[0 := Call(1, Some(Request(1, false)), Admitted(1))]
      == [Call(1, Some(Request(1, false)), Admitted(1))];
  }

  // ---- a member that is removed again ------------------------------------------------------------------------------

  lemma RemoveOne(r: Rules, t: State)
    requires 1 in t.rows && t.accounts == [Anna(Numeral(1))]
    ensures var e := RemoveMember(1, "a@x");
      Enabled(t, e) && Step(r, t, e) == t.(accounts := [Account(7, "a@x", "csv_uploaded", "")])
  {
    CookieIsThere();
    NumeralIsText(1);
    hide Strip, Lower, Numeral;
  }

  lemma UploadedIsNotDrawn(limit: nat)
    ensures Pool([Account(7, "a@x", "csv_uploaded", "")], limit) == []
  {
    hide Strip;
    var a := Account(7, "a@x", "csv_uploaded", "");
    assert !Invitable(a) && [a][1..] == [] && Invitables([]) == [];
  }

  /** An account is invited, recorded, and removed from the workspace: it has lost its owner, and
      no pool of any size takes it again. */
  lemma RemovedMemberStaysOut(r: Rules, limit: nat)
    ensures var q, out := Some(Request(1, false)), [Account(7, "a@x", "csv_uploaded", "")];
      var run := [Begin(1, q)] + [Read(0, 0, 24, Calm())] + [Write(0)] + [Draw(0)] + [Send(0, ["a@x"])] + [MarkSent(0)]
                 + [RemoveMember(1, "a@x")];
      && Leads(r, Full([]), run, Full([Call(1, q, Done())]).(accounts := out))
      && Pool(Full([]).accounts, 1) == PoolA() && Pool(out, limit) == []
  {
    var q, s0 := Some(Request(1, false)), Full([]);
    var s1, s2 := Full([Call(1, q, Looking)]), Full([Call(1, q, Admitted(1))]);
    var s3, s4 := Full([Call(1, q, Drawn(PoolA()))]), Full([Call(1, q, Reported(PoolA(), [7]))]);
    var s5 := Full([Call(1, q, Done())]).(accounts := [Anna(Numeral(1))]);
    AnnaIsDrawn();
    UploadedIsNotDrawn(limit);
    BeginOne(r, s0, 1);
    ReadAndWrite(r, s1, 0);
    RemoveOne(r, s5);
    hide Leads, Step, Enabled, Anna, Row5, Calm, Numeral, Pool, PoolA, Done;
    NoEvents(r, s0);
    Extend(r, s0, [], s0, Begin(1, q));
    assert [] + [Begin(1, q)] == [Begin(1, q)];
    assert s0.calls + [Call(1, q, Looking)] == s1.calls;
    var a, b := Read(0, 0, 24, Calm()), Write(0);
    Extend(r, s0, [Begin(1, q)], s1, a);
    Extend(r, s0, [Begin(1, q)] + [a], Step(r, s1, a), b);
    assert s1.calls[0 := s1.calls[0].(phase := Admitted(1))] == s2.calls;
    ThenInvited(r, s0, [Begin(1, q)] + [a] + [b], s2, s3, s4, s5);
    var done := [Begin(1, q)] + [a] + [b] + [Draw(0)] + [Send(0, ["a@x"])] + [MarkSent(0)];
    Extend(r, s0, done, s5, RemoveMember(1, "a@x"));
  }

  /** From the admission of the only call to its record. */
  lemma ThenInvited(r: Rules, s: State, run: seq<Event>, s2: State, s3: State, s4: State, s5: State)
    requires Leads(r, s, run, s2)
    requires s2 == Full([Call(1, Some(Request(1, false)), Admitted(1))])
    requires s3 == Full([Call(1, Some(Request(1, false)), Drawn(PoolA()))])
    requires s4 == Full([Call(1, Some(Request(1, false)), Reported(PoolA(), [7]))])
    requires s5 == Full([Call(1, Some(Request(1, false)), Done())]).(accounts := [Anna(Numeral(1))])
    ensures Leads(r, s, run + [Draw(0)] + [Send(0, ["a@x"])] + [MarkSent(0)], s5)
  {
    DrawOne(r, s2, 0);
    SendOne(r, s3, 0);
    MarkOne(r, s4, 0, "");
    hide Leads, Step, Enabled, Anna, Row5, Numeral, PoolA;
    Extend(r, s, run, s2, Draw(0));
    assert s2.calls[0 := s2.calls[0].(phase := Drawn(PoolA()))] == s3.calls;
    Extend(r, s, run + [Draw(0)], s3, Send(0, ["a@x"]));
    assert s3.calls[0 := s3.calls[0].(phase := Reported(PoolA(), [7]))] == s4.calls;
    Extend(r, s, run + [Draw(0)] + [Send(0, ["a@x"])], s4, MarkSent(0));
    assert s4.calls[0 := s4.calls[0].(phase := Done())] == s5.calls;
  }
}
