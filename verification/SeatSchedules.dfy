/** Concrete runs in which guarded invitations exceed the plan (api/business_masters.py). */
module SeatSchedules {
  import opened Basics
  import opened Decimal
  import opened Text
  import opened SeatCapacity
  import opened AdmissionGuard
  import opened InviteRuns
  import opened InviteSchedules
  import opened SeatRuns

  /** The run leads from `w` to `t` and keeps to the guard. */
  ghost predicate Guides(r: Rules, w: World, run: seq<Happening>, t: World, k: nat, limit: nat) {
    Goes(r, w, run) && Guarded(r, w, run, k, limit) && Reach(r, w, run) == t
  }

  lemma Standing(r: Rules, w: World, k: nat, limit: nat)
    ensures Guides(r, w, [], w, k, limit)
  {
  }

  lemma Onward(r: Rules, w: World, run: seq<Happening>, t: World, h: Happening, k: nat, limit: nat)
    requires Guides(r, w, run, t, k, limit) && Possible(t, h) && Sound(r, t, h, k, limit)
    ensures Guides(r, w, run + [h], Next(r, t, h), k, limit)
  {
    hide Next, Possible, Sound;
    var longer := run + [h];
    assert longer[..|run|] == run;
    forall j: nat | j < |longer| ensures SoundAt(r, w, longer, j, k, limit) {
      if j < |run| {
        assert SoundAt(r, w, run, j, k, limit);
        assert longer[..j] == run[..j];
      }
    }
  }

  function Ben(): Account { Account(8, "b@x", "registered", "") }

  function Ask(): Option<Request> { Some(Request(1, false)) }

  /** Four of five seats are taken. */
  function Tight(): Reading { Reading(4, Some(0), None) }

  /** Master 1 with a plan of five seats, in workspace 1. */
  function Alone(accounts: seq<Account>, calls: seq<Call>, space: Workspace, watches: map<nat, Watch>): World {
    World(State(map[1 := Row5()], accounts, calls), map[1 := 1], map[1 := space], watches)
  }

  function At1(w: World, i: nat, phase: Phase, v: Watch): World
    requires i < |w.s.calls|
  {
    w.(s := Move(w.s, i, phase), watches := w.watches[i := v])
  }

  // ---- single steps ---------------------------------------------------------------------------------

  /** Call `i` belongs to master 1, and is in the given phase with the given watch. */
  predicate In(w: World, i: nat, phase: Phase, v: Watch) {
    && i < |w.s.calls| && w.s.calls[i] == Call(1, Ask(), phase) && WatchOf(w, i) == v
    && w.s.rows == map[1 := Row5()] && w.home == map[1 := 1]
  }

  lemma BeginAsked(r: Rules, w: World)
    requires w.s.rows == map[1 := Row5()] && w.home == map[1 := 1]
    ensures var h := Acts(Begin(1, Ask()));
      Possible(w, h) && Sound(r, w, h, 1, 5)
      && Next(r, w, h) == w.(s := w.s.(calls := w.s.calls + [Call(1, Ask(), Looking)]))
  {
    BeginOne(r, w.s, 1);
    hide Step, Enabled, FirstPhase;
  }

  lemma SeeFour(r: Rules, w: World, i: nat)
    requires In(w, i, Looking, Unwatched()) && Space(w, 1).members == 4
    ensures var h := SeeMembers(i);
      Possible(w, h) && Sound(r, w, h, 1, 5) && Next(r, w, h) == At1(w, i, Looking, Watch(Some(4), None, 0))
  {
    assert Move(w.s, i, Looking).calls == w.s.calls;
  }

  lemma SeeNone(r: Rules, w: World, i: nat)
    requires In(w, i, Looking, Watch(Some(4), None, 0)) && Space(w, 1).pending == 0
    ensures var h := SeeInvites(i);
      Possible(w, h) && Sound(r, w, h, 1, 5) && Next(r, w, h) == At1(w, i, Looking, Watch(Some(4), Some(0), 0))
  {
    assert Move(w.s, i, Looking).calls == w.s.calls;
  }

  lemma TightAdmitsOne(r: Rules)
    ensures Compute(r, 5, None, 0, 24, Tight()) == Computed(None, false, 1) && Plan(r, 5, Tight()) == 5
    ensures Decide(Computed(None, false, 1), Wanted(1)) == Admit(1)
  {
    hide UpcomingSeats;
  }

  lemma ReadTight(r: Rules, w: World, i: nat)
    requires In(w, i, Looking, Watch(Some(4), Some(0), 0))
    ensures var h := Acts(Read(i, 0, 24, Tight()));
      Possible(w, h) && Sound(r, w, h, 1, 5)
      && Next(r, w, h) == At1(w, i, Counted(Computed(None, false, 1)), Watch(Some(4), Some(0), 0))
  {
    TightAdmitsOne(r);
    hide Compute, Decide, Plan;
    assert w.watches[i := Watch(Some(4), Some(0), 0)] == w.watches;
  }

  lemma WriteTight(r: Rules, w: World, i: nat)
    requires In(w, i, Counted(Computed(None, false, 1)), Watch(Some(4), Some(0), 0))
    ensures var h := Acts(Write(i));
      Possible(w, h) && Sound(r, w, h, 1, 5)
      && Next(r, w, h) == At1(w, i, Admitted(1), Watch(Some(4), Some(0), 0))
  {
    TightAdmitsOne(r);
    hide Compute, Decide, Plan;
    assert w.watches[i := Watch(Some(4), Some(0), 0)] == w.watches;
    assert w.s.rows[1 := w.s.rows[1].(pausedUntil := None)] == w.s.rows;
  }

  lemma DrawOneOf(r: Rules, w: World, i: nat, p: Picked)
    requires In(w, i, Admitted(1), Watch(Some(4), Some(0), 0)) && Pool(w.s.accounts, 1) == [p]
    ensures var h := Acts(Draw(i));
      Possible(w, h) && Sound(r, w, h, 1, 5) && Next(r, w, h) == At1(w, i, Drawn([p]), Watch(Some(4), Some(0), 0))
  {
    hide Pool;
    assert w.watches[i := Watch(Some(4), Some(0), 0)] == w.watches;
  }

  lemma LandOne(r: Rules, w: World, i: nat, p: Picked)
    requires In(w, i, Drawn([p]), Watch(Some(4), Some(0), 0))
    ensures var h := Land(1, i, 1);
      Possible(w, h) && Sound(r, w, h, 1, 5)
      && Next(r, w, h) == At1(w, i, Drawn([p]), Watch(Some(4), Some(0), 1)).(
           spaces := w.spaces[1 := Workspace(Space(w, 1).members, Space(w, 1).pending + 1)])
  {
    assert Move(w.s, i, Drawn([p])).calls == w.s.calls;
  }

  // ---- stretches of a run ------------------------------------------------------------------------------

  function Full4(): Watch { Watch(Some(4), Some(0), 0) }

  /** Call `i` reads four taken seats and is admitted for the fifth. */
  lemma Admission(r: Rules, w: World, run: seq<Happening>, t: World, i: nat)
    requires Guides(r, w, run, t, 1, 5) && In(t, i, Looking, Unwatched()) && Space(t, 1) == Workspace(4, 0)
    ensures Guides(r, w,
      run + [SeeMembers(i)] + [SeeInvites(i)] + [Acts(Read(i, 0, 24, Tight()))] + [Acts(Write(i))],
      At1(t, i, Admitted(1), Full4()), 1, 5)
  {
    SeeFour(r, t, i);
    Onward(r, w, run, t, SeeMembers(i), 1, 5);
    var t1 := At1(t, i, Looking, Watch(Some(4), None, 0));
    SeeNone(r, t1, i);
    Onward(r, w, run + [SeeMembers(i)], t1, SeeInvites(i), 1, 5);
    Decided(r, w, run + [SeeMembers(i)] + [SeeInvites(i)], t, t1, i);
  }

  /** From both looks to the admission. */
  lemma Decided(r: Rules, w: World, run: seq<Happening>, t: World, t1: World, i: nat)
    requires i < |t.s.calls| && t1 == At1(t, i, Looking, Watch(Some(4), None, 0))
    requires Guides(r, w, run, At1(t1, i, Looking, Full4()), 1, 5)
    requires In(At1(t1, i, Looking, Full4()), i, Looking, Full4())
    ensures Guides(r, w, run + [Acts(Read(i, 0, 24, Tight()))] + [Acts(Write(i))],
      At1(t, i, Admitted(1), Full4()), 1, 5)
  {
    hide Guides, Possible, Sound, Next, Tight;
    var t2 := At1(t1, i, Looking, Full4());
    ReadTight(r, t2, i);
    Onward(r, w, run, t2, Acts(Read(i, 0, 24, Tight())), 1, 5);
    var t3 := At1(t2, i, Counted(Computed(None, false, 1)), Full4());
    WriteTight(r, t3, i);
    Onward(r, w, run + [Acts(Read(i, 0, 24, Tight()))], t3, Acts(Write(i)), 1, 5);
    assert At1(t3, i, Admitted(1), Full4()) == At1(t, i, Admitted(1), Full4()) by {
      assert t3.watches[i := Full4()] == t.watches[i := Full4()];
      assert Move(t3.s, i, Admitted(1)).calls == Move(t.s, i, Admitted(1)).calls;
    }
  }

  /** Call `i` draws one account, and its invitation arrives. */
  lemma Arrival(r: Rules, w: World, run: seq<Happening>, t: World, i: nat, p: Picked)
    requires Guides(r, w, run, t, 1, 5) && In(t, i, Admitted(1), Full4()) && Pool(t.s.accounts, 1) == [p]
    ensures Guides(r, w, run + [Acts(Draw(i))] + [Land(1, i, 1)],
      At1(t, i, Drawn([p]), Watch(Some(4), Some(0), 1)).(
        spaces := t.spaces[1 := Workspace(Space(t, 1).members, Space(t, 1).pending + 1)]), 1, 5)
  {
    hide Guides, Possible, Sound, Next, Pool;
    DrawOneOf(r, t, i, p);
    Onward(r, w, run, t, Acts(Draw(i)), 1, 5);
    var t1 := At1(t, i, Drawn([p]), Full4());
    LandOne(r, t1, i, p);
    Onward(r, w, run + [Acts(Draw(i))], t1, Land(1, i, 1), 1, 5);
    assert t1.watches[i := Watch(Some(4), Some(0), 1)] == t.watches[i := Watch(Some(4), Some(0), 1)];
    assert Move(t1.s, i, Drawn([p])).calls == Move(t.s, i, Drawn([p])).calls;
  }

  // ---- two guards, one free seat -------------------------------------------------------------------------

  lemma BenIsNext()
    ensures Pool([Anna(""), Ben()], 1) == PoolA()
    ensures Pool([Anna(Numeral(1)), Ben()], 1) == [Picked(8, "b@x")]
  {
    CookieIsThere();
    NumeralIsText(1);
    TrimTwice("b@x", IsSpace);
    hide Strip, Lower, Numeral;
    assert Strip("b@x") == "b@x" by {
      BenIsTrimmed();
    }
    BenIsLower();
    assert [Anna(""), Ben()][1..] == [Ben()] && [Anna(Numeral(1)), Ben()][1..] == [Ben()] && [Ben()][1..] == [];
    assert Invitables([]) == [];
    assert Invitables([Ben()]) == [Pick(Ben())];
    assert Invitables([Anna(""), Ben()]) == [Pick(Anna(""))] + [Pick(Ben())];
    assert !Invitable(Anna(Numeral(1)));
    assert Invitables([Anna(Numeral(1)), Ben()]) == [] + [Pick(Ben())];
  }

  lemma BenIsTrimmed()
    ensures Strip("b@x") == "b@x"
  {
    TrimTwice("b@x", IsSpace);
  }

  lemma BenIsLower()
    ensures Lower("b@x") == "b@x"
  {
  }

  lemma SendAnna(r: Rules, t: World)
    requires In(t, 0, Drawn(PoolA()), WatchOf(t, 0))
    ensures var h := Acts(Send(0, ["a@x"]));
      Possible(t, h) && Sound(r, t, h, 1, 5) && Next(r, t, h) == t.(s := Move(t.s, 0, Reported(PoolA(), [7])))
  {
    AnnaIsDrawn();
    hide Pool, InvitedIds;
  }

  lemma MarkAnna(r: Rules, t: World)
    requires In(t, 0, Reported(PoolA(), [7]), WatchOf(t, 0)) && t.s.accounts == [Anna(""), Ben()]
    ensures var h := Acts(MarkSent(0));
      Possible(t, h) && Sound(r, t, h, 1, 5)
      && Next(r, t, h) == t.(s := Move(t.s, 0, Done()).(accounts := [Anna(Numeral(1)), Ben()]))
  {
    NumeralIsText(1);
    hide Numeral;
    assert Mark(t.s.accounts, [7], 1) == [Anna(Numeral(1)), Ben()];
  }

  /** The first invitation is answered and recorded. */
  lemma Recorded(r: Rules, w: World, run: seq<Happening>, t: World)
    requires Guides(r, w, run, t, 1, 5) && In(t, 0, Drawn(PoolA()), Watch(Some(4), Some(0), 1))
    requires t.s.accounts == [Anna(""), Ben()]
    ensures Guides(r, w, run + [Acts(Send(0, ["a@x"]))] + [Acts(MarkSent(0))],
      t.(s := Move(t.s, 0, Done()).(accounts := [Anna(Numeral(1)), Ben()])), 1, 5)
  {
    hide Guides, Possible, Sound, Next;
    SendAnna(r, t);
    Onward(r, w, run, t, Acts(Send(0, ["a@x"])), 1, 5);
    var t1 := t.(s := Move(t.s, 0, Reported(PoolA(), [7])));
    MarkAnna(r, t1);
    Onward(r, w, run + [Acts(Send(0, ["a@x"]))], t1, Acts(MarkSent(0)), 1, 5);
    assert Move(t1.s, 0, Done()).calls == Move(t.s, 0, Done()).calls;
  }

  function Start(): World { Alone([Anna(""), Ben()], [], Workspace(4, 0), map[]) }

  function BothAdmitted(): seq<Happening> {
    [Acts(Begin(1, Ask())), Acts(Begin(1, Ask())),
     SeeMembers(0), SeeInvites(0), Acts(Read(0, 0, 24, Tight())), Acts(Write(0)),
     SeeMembers(1), SeeInvites(1), Acts(Read(1, 0, 24, Tight())), Acts(Write(1))]
  }

  /** The world when both calls are admitted for the same fifth seat. */
  function Doubled(): World {
    Alone([Anna(""), Ben()], [Call(1, Ask(), Admitted(1)), Call(1, Ask(), Admitted(1))], Workspace(4, 0),
          map[0 := Full4(), 1 := Full4()])
  }

  lemma BothBegin(r: Rules)
    ensures Guides(r, Start(), [Acts(Begin(1, Ask())), Acts(Begin(1, Ask()))],
      Alone([Anna(""), Ben()], [Call(1, Ask(), Looking), Call(1, Ask(), Looking)], Workspace(4, 0), map[]), 1, 5)
  {
    hide Guides, Possible, Sound, Next;
    var h, w1 := Acts(Begin(1, Ask())), Alone([Anna(""), Ben()], [Call(1, Ask(), Looking)], Workspace(4, 0), map[]);
    Standing(r, Start(), 1, 5);
    BeginAsked(r, Start());
    Onward(r, Start(), [], Start(), h, 1, 5);
    assert [] + [h] == [h] && [] + [Call(1, Ask(), Looking)] == w1.s.calls;
    BeginAsked(r, w1);
    Onward(r, Start(), [h], w1, h, 1, 5);
    assert [h] + [h] == [h, h];
    assert w1.s.calls + [Call(1, Ask(), Looking)] == [Call(1, Ask(), Looking), Call(1, Ask(), Looking)];
  }

  lemma BothGuardsAdmit(r: Rules)
    ensures Guides(r, Start(), BothAdmitted(), Doubled(), 1, 5)
  {
    hide Guides, Possible, Sound, Next;
    BothBegin(r);
    var begun := [Acts(Begin(1, Ask())), Acts(Begin(1, Ask()))];
    var look, ready := Call(1, Ask(), Looking), Call(1, Ask(), Admitted(1));
    var t := Alone([Anna(""), Ben()], [look, look], Workspace(4, 0), map[]);
    var u := Alone([Anna(""), Ben()], [ready, look], Workspace(4, 0), map[0 := Full4()]);
    Admission(r, Start(), begun, t, 0);
    assert [look, look][0 := ready] == [ready, look] && map[][0 := Full4()] == map[0 := Full4()];
    var half := begun + [SeeMembers(0)] + [SeeInvites(0)] + [Acts(Read(0, 0, 24, Tight()))] + [Acts(Write(0))];
    Admission(r, Start(), half, u, 1);
    assert [ready, look][1 := ready] == [ready, ready];
    assert half + [SeeMembers(1)] + [SeeInvites(1)] + [Acts(Read(1, 0, 24, Tight()))] + [Acts(Write(1))]
        == BothAdmitted();
  }

  /** Two invitations of one master, both guarded and with faithful readings, that overlap only in
      that both read before the first has sent: each keeps to the one free seat it has read, and
      six of five seats are taken. */
  lemma TwoGuardsShareOneSeat(r: Rules)
    ensures var run := BothAdmitted()
                       + [Acts(Draw(0)), Land(1, 0, 1), Acts(Send(0, ["a@x"])), Acts(MarkSent(0)),
                          Acts(Draw(1)), Land(1, 1, 1)];
      && Begins(Start()) && Goes(r, Start(), run) && Guarded(r, Start(), run, 1, 5) && NobodyElseInvites(run, 1)
      && Occupied(Start(), 1) == 4 && Occupied(Reach(r, Start(), run), 1) == 6
  {
    hide Goes, Guarded, BothAdmitted;
    var t := SecondSends(r);
    Six(BothAdmitted(), Acts(Draw(0)), Land(1, 0, 1), Acts(Send(0, ["a@x"])), Acts(MarkSent(0)), Acts(Draw(1)),
      Land(1, 1, 1));
    NobodyOutside();
  }

  lemma Six(run: seq<Happening>, a: Happening, b: Happening, c: Happening, d: Happening, e: Happening, f: Happening)
    ensures run + [a] + [b] + [c] + [d] + [e] + [f] == run + [a, b, c, d, e, f]
  {
  }

  lemma NobodyOutside()
    ensures NobodyElseInvites(
      BothAdmitted() + [Acts(Draw(0)), Land(1, 0, 1), Acts(Send(0, ["a@x"])), Acts(MarkSent(0)),
                        Acts(Draw(1)), Land(1, 1, 1)], 1)
  {
    assert forall h :: h in BothAdmitted() ==> !h.Outside?;
  }

  lemma SecondSends(r: Rules) returns (t: World)
    ensures Guides(r, Start(),
      BothAdmitted() + [Acts(Draw(0))] + [Land(1, 0, 1)] + [Acts(Send(0, ["a@x"]))] + [Acts(MarkSent(0))]
        + [Acts(Draw(1))] + [Land(1, 1, 1)], t, 1, 5)
    ensures Occupied(t, 1) == 6
  {
    BothGuardsAdmit(r);
    BenIsNext();
    hide Guides, Pool, Numeral, Mark, BothAdmitted;
    var ready, landed := Call(1, Ask(), Admitted(1)), Watch(Some(4), Some(0), 1);
    Arrival(r, Start(), BothAdmitted(), Doubled(), 0, Picked(7, "a@x"));
    var t1 := At1(Doubled(), 0, Drawn(PoolA()), landed).(spaces := Doubled().spaces[1 := Workspace(4, 1)]);
    Recorded(r, Start(), BothAdmitted() + [Acts(Draw(0))] + [Land(1, 0, 1)], t1);
    var t2 := t1.(s := Move(t1.s, 0, Done()).(accounts := [Anna(Numeral(1)), Ben()]));
    Arrival(r, Start(),
      BothAdmitted() + [Acts(Draw(0))] + [Land(1, 0, 1)] + [Acts(Send(0, ["a@x"]))] + [Acts(MarkSent(0))],
      t2, 1, Picked(8, "b@x"));
    t := At1(t2, 1, Drawn([Picked(8, "b@x")]), landed).(spaces := t2.spaces[1 := Workspace(4, 2)]);
  }

  // ---- one guard, one member joining -----------------------------------------------------------------------

  /** A single guarded invitation into a full workspace: its one pending guest accepts between the
      two remote reads, is counted by neither, and a sixth seat is taken. */
  lemma GuestIsCountedByNeither(r: Rules)
    ensures var w := Alone([Anna("")], [], Workspace(4, 1), map[]);
      var run := [Acts(Begin(1, Ask())), SeeMembers(0), Outside(1, 1, -1), SeeInvites(0),
                  Acts(Read(0, 0, 24, Tight())), Acts(Write(0)), Acts(Draw(0)), Land(1, 0, 1)];
      && Begins(w) && Goes(r, w, run) && Guarded(r, w, run, 1, 5) && NobodyElseInvites(run, 1)
      && Occupied(w, 1) == 5 && Occupied(Reach(r, w, run), 1) == 6
  {
    var w := Alone([Anna("")], [], Workspace(4, 1), map[]);
    var t := GuestRun(r);
    hide Goes, Guarded;
    assert [Acts(Begin(1, Ask()))] + [SeeMembers(0)] + [Outside(1, 1, -1)] + [SeeInvites(0)]
           + [Acts(Read(0, 0, 24, Tight()))] + [Acts(Write(0))] + [Acts(Draw(0))] + [Land(1, 0, 1)]
      == [Acts(Begin(1, Ask())), SeeMembers(0), Outside(1, 1, -1), SeeInvites(0),
          Acts(Read(0, 0, 24, Tight())), Acts(Write(0)), Acts(Draw(0)), Land(1, 0, 1)];
  }

  lemma GuestAccepts(r: Rules, t: World)
    requires Space(t, 1) == Workspace(4, 1)
    ensures var h := Outside(1, 1, -1);
      Possible(t, h) && Sound(r, t, h, 1, 5) && Next(r, t, h) == t.(spaces := t.spaces[1 := Workspace(5, 0)])
  {
  }

  lemma GuestRun(r: Rules) returns (t: World)
    ensures Guides(r, Alone([Anna("")], [], Workspace(4, 1), map[]),
      [Acts(Begin(1, Ask()))] + [SeeMembers(0)] + [Outside(1, 1, -1)] + [SeeInvites(0)]
      + [Acts(Read(0, 0, 24, Tight()))] + [Acts(Write(0))] + [Acts(Draw(0))] + [Land(1, 0, 1)], t, 1, 5)
    ensures Occupied(t, 1) == 6
  {
    AnnaIsDrawn();
    hide Guides, Possible, Sound, Next, Pool, InvitedIds;
    var w, h := Alone([Anna("")], [], Workspace(4, 1), map[]), Acts(Begin(1, Ask()));
    var t0 := Alone([Anna("")], [Call(1, Ask(), Looking)], Workspace(4, 1), map[]);
    Standing(r, w, 1, 5);
    BeginAsked(r, w);
    Onward(r, w, [], w, h, 1, 5);
    assert [] + [h] == [h] && [] + [Call(1, Ask(), Looking)] == t0.s.calls;
    SeeFour(r, t0, 0);
    Onward(r, w, [h], t0, SeeMembers(0), 1, 5);
    var t1 := At1(t0, 0, Looking, Watch(Some(4), None, 0));
    GuestAccepts(r, t1);
    Onward(r, w, [h] + [SeeMembers(0)], t1, Outside(1, 1, -1), 1, 5);
    var t2 := t1.(spaces := t1.spaces[1 := Workspace(5, 0)]);
    SeeNone(r, t2, 0);
    var looked := [h] + [SeeMembers(0)] + [Outside(1, 1, -1)];
    Onward(r, w, looked, t2, SeeInvites(0), 1, 5);
    var t' := t0.(spaces := t2.spaces);
    assert At1(t', 0, Looking, Watch(Some(4), None, 0)) == t2;
    Decided(r, w, looked + [SeeInvites(0)], t', t2, 0);
    var t3 := At1(t', 0, Admitted(1), Full4());
    var admitted := looked + [SeeInvites(0)] + [Acts(Read(0, 0, 24, Tight()))] + [Acts(Write(0))];
    Arrival(r, w, admitted, t3, 0, Picked(7, "a@x"));
    t := At1(t3, 0, Drawn(PoolA()), Watch(Some(4), Some(0), 1)).(spaces := t3.spaces[1 := Workspace(5, 1)]);
  }
}
