/** The workspaces behind the admission guard: who holds a seat while invitations and statistics
    of any masters overlap (api/business_masters.py).

    The remote reads and the batches of a call are steps of their own here, and the workspace
    changes by itself in between: people accept, leave, or are invited by hand. */
module SeatRuns {
  import opened Basics
  import opened SeatCapacity
  import opened AdmissionGuard
  import opened InviteRuns
  import opened InvitePauses

  datatype Workspace = Workspace(members: nat, pending: nat)

  /** What call has seen of its workspace, and how many of its invitations have arrived there. */
  datatype Watch = Watch(members: Option<nat>, pending: Option<nat>, landed: nat)

  /** `home` is the workspace of each master; masters may share one. */
  datatype World = World(s: State, home: map<nat, nat>, spaces: map<nat, Workspace>, watches: map<nat, Watch>)

  /** A session of a call, its two remote reads, `n` invitations arriving in workspace `k`, or a
      change of that workspace from outside. */
  datatype Happening =
    | Acts(e: Event)
    | SeeMembers(i: nat)
    | SeeInvites(i: nat)
    | Land(k: nat, i: nat, n: nat)
    | Outside(k: nat, members: int, pending: int)

  function Unwatched(): Watch { Watch(None, None, 0) }

  function WatchOf(w: World, i: nat): Watch { if i in w.watches then w.watches[i] else Unwatched() }

  function Space(w: World, k: nat): Workspace { if k in w.spaces then w.spaces[k] else Workspace(0, 0) }

  function Occupied(w: World, k: nat): nat { Space(w, k).members + Space(w, k).pending }

  function HomeOf(w: World, master: nat): nat { if master in w.home then w.home[master] else 0 }

  /** The workspace of call `i`. */
  function Site(w: World, i: nat): nat
    requires i < |w.s.calls|
  {
    HomeOf(w, w.s.calls[i].master)
  }

  predicate IsLooking(w: World, i: nat) { InFlight(w.s, i) && w.s.calls[i].phase.Looking? }

  /** The members are read first, then the pending invitations; the statistics use what was seen,
      but the invites endpoint may have failed. */
  predicate Possible(w: World, h: Happening) {
    match h
    case Acts(e) =>
      && Enabled(w.s, e)
      && (e.Read? ==>
            && WatchOf(w, e.i).members == Some(e.x.active) && WatchOf(w, e.i).pending.Some?
            && (e.x.pending.Some? ==> e.x.pending.value == WatchOf(w, e.i).pending.value))
    case SeeMembers(i) => IsLooking(w, i) && WatchOf(w, i).members.None?
    case SeeInvites(i) => IsLooking(w, i) && WatchOf(w, i).members.Some? && WatchOf(w, i).pending.None?
    case Land(k, i, n) =>
      && InFlight(w.s, i) && Site(w, i) == k && w.s.calls[i].phase.Drawn?
      && WatchOf(w, i).landed + n <= |w.s.calls[i].phase.pool|
    case Outside(k, members, pending) => Space(w, k).members + members >= 0 && Space(w, k).pending + pending >= 0
  }

  function Next(r: Rules, w: World, h: Happening): World
    requires Possible(w, h)
  {
    match h
    case Acts(e) => w.(s := Step(r, w.s, e))
    case SeeMembers(i) =>
      w.(watches := w.watches[i := WatchOf(w, i).(members := Some(Space(w, Site(w, i)).members))])
    case SeeInvites(i) =>
      w.(watches := w.watches[i := WatchOf(w, i).(pending := Some(Space(w, Site(w, i)).pending))])
    case Land(k, i, n) =>
      w.(watches := w.watches[i := WatchOf(w, i).(landed := WatchOf(w, i).landed + n)],
         spaces := w.spaces[k := Space(w, k).(pending := Space(w, k).pending + n)])
    case Outside(k, members, pending) =>
      w.(spaces := w.spaces[k := Workspace(Space(w, k).members + members, Space(w, k).pending + pending)])
  }

  ghost predicate Goes(r: Rules, w: World, run: seq<Happening>)
    decreases |run|, 0
  {
    |run| > 0 ==> Goes(r, w, run[..|run| - 1]) && Possible(Reach(r, w, run[..|run| - 1]), run[|run| - 1])
  }

  ghost function Reach(r: Rules, w: World, run: seq<Happening>): World
    requires Goes(r, w, run)
    decreases |run|, 1
  {
    if |run| == 0 then w else Next(r, Reach(r, w, run[..|run| - 1]), run[|run| - 1])
  }

  lemma {:induction false} GoesPrefix(r: Rules, w: World, run: seq<Happening>, j: nat)
    requires Goes(r, w, run) && j <= |run|
    ensures Goes(r, w, run[..j])
    ensures j < |run| ==> Possible(Reach(r, w, run[..j]), run[j]) && Goes(r, w, run[..j + 1])
                          && Reach(r, w, run[..j + 1]) == Next(r, Reach(r, w, run[..j]), run[j])
    decreases |run|
  {
    hide Next, Possible;
    if j == |run| {
      assert run[..j] == run;
    } else if j == |run| - 1 {
      assert run[..j + 1] == run;
    } else {
      var init := run[..|run| - 1];
      GoesPrefix(r, w, init, j);
      assert init[..j] == run[..j] && init[..j + 1] == run[..j + 1] && init[j] == run[j];
    }
  }

  /** The world after the first `j` happenings. */
  ghost function At(r: Rules, w: World, run: seq<Happening>, j: nat): World
    requires Goes(r, w, run) && j <= |run|
  {
    GoesPrefix(r, w, run, j);
    Reach(r, w, run[..j])
  }

  lemma AtNext(r: Rules, w: World, run: seq<Happening>, j: nat)
    requires Goes(r, w, run) && j < |run|
    ensures Possible(At(r, w, run, j), run[j])
    ensures At(r, w, run, j + 1) == Next(r, At(r, w, run, j), run[j])
  {
    hide Next, Possible;
    GoesPrefix(r, w, run, j);
  }

  // ---- calls keep their workspace -----------------------------------------------------------------

  lemma SiteStays(r: Rules, w: World, h: Happening, i: nat)
    requires Possible(w, h) && i < |w.s.calls|
    ensures i < |Next(r, w, h).s.calls| && Site(Next(r, w, h), i) == Site(w, i)
    ensures Next(r, w, h).home == w.home
  {
    hide Compute, Decide, Wanted, Pool, InvitedIds, Mark, Unassign, FirstPhase;
  }

  lemma {:induction false} SiteForever(r: Rules, w: World, run: seq<Happening>, i: nat, a: nat, b: nat)
    requires Goes(r, w, run) && a <= b <= |run| && i < |At(r, w, run, a).s.calls|
    ensures i < |At(r, w, run, b).s.calls| && Site(At(r, w, run, b), i) == Site(At(r, w, run, a), i)
    decreases b
  {
    hide Next, Possible;
    if a < b {
      SiteForever(r, w, run, i, a, b - 1);
      AtNext(r, w, run, b - 1);
      SiteStays(r, At(r, w, run, b - 1), run[b - 1], i);
    }
  }

  // ---- what was seen stays seen --------------------------------------------------------------------

  lemma WatchStays(r: Rules, w: World, h: Happening, i: nat)
    requires Possible(w, h)
    ensures var v, v' := WatchOf(w, i), WatchOf(Next(r, w, h), i);
      && (v.members.Some? ==> v'.members == v.members) && (v.pending.Some? ==> v'.pending == v.pending)
      && v'.landed == v.landed + if h.Land? && h.i == i then h.n else 0
  {
    hide Step, Enabled;
  }

  lemma {:induction false} SeenForever(r: Rules, w: World, run: seq<Happening>, i: nat, a: nat, b: nat)
    requires Goes(r, w, run) && a <= b <= |run|
    ensures var v, v' := WatchOf(At(r, w, run, a), i), WatchOf(At(r, w, run, b), i);
      (v.members.Some? ==> v'.members == v.members) && (v.pending.Some? ==> v'.pending == v.pending)
    decreases b
  {
    hide Next, Possible, WatchOf;
    if a < b {
      SeenForever(r, w, run, i, a, b - 1);
      AtNext(r, w, run, b - 1);
      WatchStays(r, At(r, w, run, b - 1), run[b - 1], i);
    }
  }

  /** Call `i` read the members at `a` and the pending invitations at `b`. */
  predicate LookedAt(run: seq<Happening>, i: nat, a: nat, b: nat) {
    a < b < |run| && run[a] == SeeMembers(i) && run[b] == SeeInvites(i)
  }

  /** A world in which no call has begun. */
  predicate Begins(w: World) { w.s.calls == [] && w.watches == map[] }

  lemma {:induction false} LooksHappened(r: Rules, w: World, run: seq<Happening>, i: nat, j: nat)
    requires Goes(r, w, run) && Begins(w) && j <= |run|
    ensures WatchOf(At(r, w, run, j), i).members.Some? ==> exists a: nat :: a < j && run[a] == SeeMembers(i)
    ensures WatchOf(At(r, w, run, j), i).pending.Some? ==> exists a: nat, b: nat :: b < j && LookedAt(run, i, a, b)
  {
    hide Next, Possible, Begins, WatchOf;
    if j == 0 {
      NothingSeen(w, i);
    } else {
      LooksHappened(r, w, run, i, j - 1);
      AtNext(r, w, run, j - 1);
      LookStep(r, At(r, w, run, j - 1), run[j - 1], i);
      if run[j - 1] == SeeInvites(i) {
        var a: nat :| a < j - 1 && run[a] == SeeMembers(i);
        assert LookedAt(run, i, a, j - 1);
      }
    }
  }

  lemma NothingSeen(w: World, i: nat)
    requires Begins(w)
    ensures WatchOf(w, i) == Unwatched()
  {
  }

  lemma LookStep(r: Rules, w: World, h: Happening, i: nat)
    requires Possible(w, h)
    ensures var v, v' := WatchOf(w, i), WatchOf(Next(r, w, h), i);
      && (v'.members.Some? ==> v.members.Some? || h == SeeMembers(i))
      && (v'.pending.Some? ==> v.pending.Some? || h == SeeInvites(i))
      && (h == SeeInvites(i) ==> v.members.Some?)
  {
    hide Step, Enabled;
  }

  // ---- nobody lands before drawing -----------------------------------------------------------------

  /** A call that has not drawn has no invitation in the workspace. */
  predicate LandedAfterDraw(w: World, i: nat) {
    i >= |w.s.calls| || !(w.s.calls[i].phase.Drawn? || w.s.calls[i].phase.Reported? || w.s.calls[i].phase.Finished?)
    ==> WatchOf(w, i).landed == 0
  }

  lemma LandedAfterDrawStep(r: Rules, w: World, h: Happening, i: nat)
    requires Possible(w, h) && LandedAfterDraw(w, i)
    ensures LandedAfterDraw(Next(r, w, h), i)
  {
    hide Compute, Decide, Wanted, Pool, InvitedIds, Mark, Unassign, FirstPhase;
  }

  lemma {:induction false} NoneLandedBefore(r: Rules, w: World, run: seq<Happening>, i: nat, j: nat)
    requires Goes(r, w, run) && Begins(w) && j <= |run|
    ensures LandedAfterDraw(At(r, w, run, j), i)
  {
    hide Next, Possible, LandedAfterDraw;
    if j == 0 {
      NoneLandedAtStart(w, i);
    } else {
      NoneLandedBefore(r, w, run, i, j - 1);
      AtNext(r, w, run, j - 1);
      LandedAfterDrawStep(r, At(r, w, run, j - 1), run[j - 1], i);
    }
  }

  lemma NoneLandedAtStart(w: World, i: nat)
    requires Begins(w)
    ensures LandedAfterDraw(w, i)
  {
  }

  // ---- the seat ledger --------------------------------------------------------------------------------

  /** Seats of workspace `k` taken by other calls than `i` and from outside, less those given up. */
  function Others(run: seq<Happening>, k: nat, i: nat): int {
    if |run| == 0 then 0 else Others(run[..|run| - 1], k, i) + Taken(run[|run| - 1], k, i)
  }

  function Taken(h: Happening, k: nat, i: nat): int {
    match h
    case Land(k', i', n) => if k' == k && i' != i then n else 0
    case Outside(k', members, pending) => if k' == k then members + pending else 0
    case _ => 0
  }

  /** Members that workspace `k` gained: accepted invitations, less departures. */
  function Joined(run: seq<Happening>, k: nat): int {
    if |run| == 0 then 0
    else Joined(run[..|run| - 1], k)
         + (if run[|run| - 1].Outside? && run[|run| - 1].k == k then run[|run| - 1].members else 0)
  }

  lemma OccupiedStep(r: Rules, w: World, h: Happening, k: nat, i: nat)
    requires Possible(w, h) && i < |w.s.calls| && Site(w, i) == k
    ensures Occupied(Next(r, w, h), k) - WatchOf(Next(r, w, h), i).landed
      == Occupied(w, k) - WatchOf(w, i).landed + Taken(h, k, i)
  {
    hide Step, Enabled;
  }

  lemma MembersStep(r: Rules, w: World, h: Happening, k: nat)
    requires Possible(w, h)
    ensures Space(Next(r, w, h), k).members
      == Space(w, k).members + if h.Outside? && h.k == k then h.members else 0
  {
    hide Step, Enabled;
  }

  lemma {:induction false} OccupiedSince(r: Rules, w: World, run: seq<Happening>, k: nat, i: nat, b: nat, j: nat)
    requires Goes(r, w, run) && b <= j <= |run|
    requires i < |At(r, w, run, b).s.calls| && Site(At(r, w, run, b), i) == k
    ensures Occupied(At(r, w, run, j), k) - WatchOf(At(r, w, run, j), i).landed
      == Occupied(At(r, w, run, b), k) - WatchOf(At(r, w, run, b), i).landed + Others(run[b..j], k, i)
    decreases j
  {
    hide Next, Possible, WatchOf, Occupied, Taken, Site;
    if b < j {
      OccupiedSince(r, w, run, k, i, b, j - 1);
      AtNext(r, w, run, j - 1);
      SiteForever(r, w, run, i, b, j - 1);
      OccupiedStep(r, At(r, w, run, j - 1), run[j - 1], k, i);
      assert run[b..j][..j - b - 1] == run[b..j - 1] && run[b..j][j - b - 1] == run[j - 1];
    }
  }

  lemma {:induction false} MembersSince(r: Rules, w: World, run: seq<Happening>, k: nat, a: nat, b: nat)
    requires Goes(r, w, run) && a <= b <= |run|
    ensures Space(At(r, w, run, b), k).members == Space(At(r, w, run, a), k).members + Joined(run[a..b], k)
    decreases b
  {
    hide Next, Possible, Space;
    if a < b {
      MembersSince(r, w, run, k, a, b - 1);
      AtNext(r, w, run, b - 1);
      MembersStep(r, At(r, w, run, b - 1), run[b - 1], k);
      assert run[a..b][..b - a - 1] == run[a..b - 1] && run[a..b][b - a - 1] == run[b - 1];
    }
  }

  /** Seats in use as call `i` has seen them. */
  function Seen(v: Watch): int
    requires v.members.Some? && v.pending.Some?
  {
    v.members.value + v.pending.value
  }

  lemma LookingSees(r: Rules, w: World, i: nat)
    ensures Possible(w, SeeMembers(i)) ==>
      i < |w.s.calls| && WatchOf(Next(r, w, SeeMembers(i)), i).members == Some(Space(w, Site(w, i)).members)
    ensures Possible(w, SeeInvites(i)) ==>
      i < |w.s.calls| && w.s.calls[i].phase.Looking?
      && WatchOf(Next(r, w, SeeInvites(i)), i).pending == Some(Space(w, Site(w, i)).pending)
  {
  }

  /** The books of one call: at any moment after its second look the seats in use are those it
      has seen, plus what it has landed, plus the members that joined between its two looks, plus
      what others have taken since the second. */
  lemma SeatLedger(r: Rules, w: World, run: seq<Happening>, k: nat, i: nat, a: nat, b: nat, j: nat)
    requires Goes(r, w, run) && Begins(w) && LookedAt(run, i, a, b) && b < j <= |run|
    requires i < |At(r, w, run, j).s.calls| && Site(At(r, w, run, j), i) == k
    ensures var v := WatchOf(At(r, w, run, j), i);
      v.members.Some? && v.pending.Some?
      && Occupied(At(r, w, run, j), k) == Seen(v) + v.landed + Joined(run[a..b], k) + Others(run[b..j], k, i)
  {
    hide Next, Possible, Begins, Others, Joined, WatchOf, Space, Site;
    var wa, wb := At(r, w, run, a), At(r, w, run, b);
    AtNext(r, w, run, a);
    AtNext(r, w, run, b);
    LookingSees(r, wa, i);
    LookingSees(r, wb, i);
    SiteForever(r, w, run, i, a, b);
    SiteForever(r, w, run, i, b, j);
    SeenForever(r, w, run, i, a + 1, j);
    SeenForever(r, w, run, i, b + 1, j);
    MembersSince(r, w, run, k, a, b);
    OccupiedSince(r, w, run, k, i, b, j);
    NoneLandedBefore(r, w, run, i, b);
  }

  // ---- guarded calls ------------------------------------------------------------------------------------

  /** The happening keeps to the guard of workspace `k`: invitations do not ignore it, their
      statistics do not raise and have read the pending invitations, and the plan is `limit`. */
  predicate Sound(r: Rules, w: World, h: Happening, k: nat, limit: nat)
    requires Possible(w, h)
  {
    match h
    case Acts(Begin(m, request)) => HomeOf(w, m) == k && request.Some? ==> !request.value.ignoreGuard
    case Acts(Fail(i, _)) => Site(w, i) == k ==> w.s.calls[i].request.None?
    case Acts(Read(i, _, _, x)) =>
      Site(w, i) == k ==> x.pending.Some? && Plan(r, w.s.rows[w.s.calls[i].master].planSeats, x) == limit
    case _ => true
  }

  /** What a guarded call may still use of the room it has read. */
  predicate KeepsItsRoom(w: World, i: nat, limit: nat)
    requires i < |w.s.calls|
  {
    var p, v := w.s.calls[i].phase, WatchOf(w, i);
    match p
    case Looking => true
    case Counted(c) => v.members.Some? && v.pending.Some? && (c.room > 0 ==> c.room + Seen(v) <= limit)
    case Admitted(count) => v.members.Some? && v.pending.Some? && count + Seen(v) <= limit
    case Drawn(pool) => v.members.Some? && v.pending.Some? && v.landed <= |pool| && |pool| + Seen(v) <= limit
    case _ => true
  }

  lemma ReadKeepsRoom(r: Rules, w: World, h: Happening, k: nat, limit: nat)
    requires h.Acts? && h.e.Read? && Possible(w, h) && Sound(r, w, h, k, limit) && Site(w, h.e.i) == k
    ensures KeepsItsRoom(Next(r, w, h), h.e.i, limit)
  {
    hide UpcomingSeats, NextPause;
  }

  lemma DrawKeepsRoom(r: Rules, w: World, h: Happening, limit: nat)
    requires h.Acts? && h.e.Draw? && Possible(w, h) && KeepsItsRoom(w, h.e.i, limit) && LandedAfterDraw(w, h.e.i)
    ensures KeepsItsRoom(Next(r, w, h), h.e.i, limit)
  {
    hide Pool;
    PoolSize(w.s.accounts, w.s.calls[h.e.i].phase.count);
  }

  lemma WriteKeepsRoom(r: Rules, w: World, h: Happening, limit: nat)
    requires h.Acts? && h.e.Write? && Possible(w, h) && KeepsItsRoom(w, h.e.i, limit)
    ensures KeepsItsRoom(Next(r, w, h), h.e.i, limit)
  {
    hide Wanted;
  }

  lemma LandKeepsRoom(r: Rules, w: World, h: Happening, limit: nat)
    requires h.Land? && Possible(w, h) && KeepsItsRoom(w, h.i, limit)
    ensures KeepsItsRoom(Next(r, w, h), h.i, limit)
  {
  }

  /** Nothing but its own steps moves a call. */
  lemma OthersKeepRoom(r: Rules, w: World, h: Happening, i: nat, limit: nat)
    requires Possible(w, h) && i < |w.s.calls| && KeepsItsRoom(w, i, limit)
    requires !(h.Acts? && Moves(h.e, i)) && !(h.Land? && h.i == i)
    ensures i < |Next(r, w, h).s.calls| && KeepsItsRoom(Next(r, w, h), i, limit)
  {
    if h.Acts? {
      OthersStayPut(r, w.s, h.e, i);
    }
    hide Step, Enabled;
  }

  lemma StepKeepsRoom(r: Rules, w: World, h: Happening, i: nat, k: nat, limit: nat)
    requires Possible(w, h) && Sound(r, w, h, k, limit) && i < |w.s.calls| && Site(w, i) == k
    requires KeepsItsRoom(w, i, limit) && LandedAfterDraw(w, i)
    ensures i < |Next(r, w, h).s.calls| && KeepsItsRoom(Next(r, w, h), i, limit)
  {
    hide Compute, Decide, Wanted, Pool, InvitedIds, Mark, Unassign, Plan;
    if h.Land? && h.i == i {
      LandKeepsRoom(r, w, h, limit);
    } else if !h.Acts? || !Moves(h.e, i) {
      OthersKeepRoom(r, w, h, i, limit);
    } else if h.e.Read? {
      ReadKeepsRoom(r, w, h, k, limit);
    } else if h.e.Write? {
      WriteKeepsRoom(r, w, h, limit);
    } else if h.e.Draw? {
      DrawKeepsRoom(r, w, h, limit);
    }
  }

  lemma NewCallKeepsRoom(r: Rules, w: World, h: Happening, i: nat, k: nat, limit: nat)
    requires Possible(w, h) && Sound(r, w, h, k, limit) && |w.s.calls| <= i < |Next(r, w, h).s.calls|
    requires Site(Next(r, w, h), i) == k
    ensures KeepsItsRoom(Next(r, w, h), i, limit)
  {
    hide Compute, Decide, Wanted, Pool, InvitedIds, Mark, Unassign;
  }

  /** Every happening of the run keeps to the guard of workspace `k`. */
  ghost predicate Guarded(r: Rules, w: World, run: seq<Happening>, k: nat, limit: nat)
    requires Goes(r, w, run)
  {
    forall j: nat :: j < |run| ==> SoundAt(r, w, run, j, k, limit)
  }

  ghost predicate SoundAt(r: Rules, w: World, run: seq<Happening>, j: nat, k: nat, limit: nat)
    requires Goes(r, w, run) && j < |run|
  {
    AtNext(r, w, run, j);
    Sound(r, At(r, w, run, j), run[j], k, limit)
  }

  lemma {:induction false} GuardedKeepsRoom(r: Rules, w: World, run: seq<Happening>, i: nat, k: nat, limit: nat, j: nat)
    requires Goes(r, w, run) && Begins(w) && Guarded(r, w, run, k, limit) && j <= |run|
    requires i < |At(r, w, run, j).s.calls| && Site(At(r, w, run, j), i) == k
    ensures KeepsItsRoom(At(r, w, run, j), i, limit)
  {
    hide Next, Possible, Sound, KeepsItsRoom, LandedAfterDraw, Site;
    if j > 0 {
      var t, h := At(r, w, run, j - 1), run[j - 1];
      AtNext(r, w, run, j - 1);
      assert SoundAt(r, w, run, j - 1, k, limit);
      if i < |t.s.calls| {
        SiteStays(r, t, h, i);
        GuardedKeepsRoom(r, w, run, i, k, limit, j - 1);
        NoneLandedBefore(r, w, run, i, j - 1);
        StepKeepsRoom(r, t, h, i, k, limit);
      } else {
        NewCallKeepsRoom(r, t, h, i, k, limit);
      }
    }
  }

  // ---- when the plan is exceeded -------------------------------------------------------------------------

  ghost predicate Exceeded(r: Rules, w: World, run: seq<Happening>, k: nat, limit: nat)
    requires Goes(r, w, run)
  {
    exists j: nat :: j <= |run| && Occupied(At(r, w, run, j), k) > limit
  }

  /** At `j` an invitation of call `i` arrives although more has been taken behind the back of its
      two looks - by members joining between them and by others after the second - than the room
      it read and leaves unused. */
  ghost predicate OutrunAt(
      r: Rules, w: World, run: seq<Happening>, k: nat, limit: nat, i: nat, a: nat, b: nat, j: nat)
    requires Goes(r, w, run)
  {
    && b < j < |run| && LookedAt(run, i, a, b) && run[j].Land? && run[j].k == k && run[j].i == i
    && var v := WatchOf(At(r, w, run, j + 1), i);
       && v.members.Some? && v.pending.Some?
       && Joined(run[a..b], k) + Others(run[b..j + 1], k, i) > limit - Seen(v) - v.landed
  }

  ghost predicate Outrun(r: Rules, w: World, run: seq<Happening>, k: nat, limit: nat)
    requires Goes(r, w, run)
  {
    exists i: nat, a: nat, b: nat, j: nat :: OutrunAt(r, w, run, k, limit, i, a, b, j)
  }

  /** From outside, nobody takes a seat of workspace `k` beyond those already invited: people
      accept and leave, but are not invited by hand. */
  predicate NobodyElseInvites(run: seq<Happening>, k: nat) {
    forall j :: 0 <= j < |run| && run[j].Outside? && run[j].k == k ==> run[j].members + run[j].pending <= 0
  }

  lemma OnlyLandingAdds(r: Rules, w: World, h: Happening, k: nat)
    requires Possible(w, h) && Occupied(Next(r, w, h), k) > Occupied(w, k)
    ensures (h.Land? && h.k == k) || (h.Outside? && h.k == k && h.members + h.pending > 0)
  {
    hide Step, Enabled;
  }

  lemma LandingCall(r: Rules, w: World, h: Happening)
    requires Possible(w, h) && h.Land?
    ensures h.i < |w.s.calls| && Site(w, h.i) == h.k && w.s.calls[h.i].phase.Drawn?
    ensures Next(r, w, h).s == w.s && Next(r, w, h).home == w.home
  {
  }

  /** An arriving invitation of a guarded call finds the plan exceeded exactly when the call was
      outrun, whatever happened before and whoever else invites. */
  lemma LandsInExcessExactly(r: Rules, w: World, run: seq<Happening>, k: nat, limit: nat, j: nat)
    requires Goes(r, w, run) && Begins(w) && Guarded(r, w, run, k, limit)
    requires j < |run| && run[j].Land? && run[j].k == k
    ensures Occupied(At(r, w, run, j + 1), k) > limit <==>
      exists a: nat, b: nat :: OutrunAt(r, w, run, k, limit, run[j].i, a, b, j)
  {
    hide Next, Possible, Sound, Occupied, Others, Joined, Begins, Site;
    var t, i := At(r, w, run, j), run[j].i;
    AtNext(r, w, run, j);
    LandingCall(r, t, run[j]);
    SiteStays(r, t, run[j], i);
    GuardedKeepsRoom(r, w, run, i, k, limit, j);
    LooksHappened(r, w, run, i, j);
    var a: nat, b: nat :| b < j && LookedAt(run, i, a, b);
    SeatLedger(r, w, run, k, i, a, b, j + 1);
    if Occupied(At(r, w, run, j + 1), k) > limit {
      assert OutrunAt(r, w, run, k, limit, i, a, b, j);
    } else {
      forall a': nat, b': nat | b' < j && LookedAt(run, i, a', b')
        ensures !OutrunAt(r, w, run, k, limit, i, a', b', j)
      {
        SeatLedger(r, w, run, k, i, a', b', j + 1);
      }
    }
  }

  lemma {:induction false} ExcessHasACrossing(r: Rules, w: World, run: seq<Happening>, k: nat, limit: nat, j: nat)
      returns (c: nat)
    requires Goes(r, w, run) && j <= |run| && Occupied(w, k) <= limit < Occupied(At(r, w, run, j), k)
    ensures c < j && Occupied(At(r, w, run, c), k) <= limit < Occupied(At(r, w, run, c + 1), k)
    decreases j
  {
    hide Occupied, Goes;
    assert j > 0;
    if Occupied(At(r, w, run, j - 1), k) <= limit {
      c := j - 1;
    } else {
      c := ExcessHasACrossing(r, w, run, k, limit, j - 1);
    }
  }

  /** Exactly when guarded invitations exceed the plan, over all interleavings of calls of all
      masters of a workspace: when an invitation arrives whose call was outrun. */
  lemma ExceededExactly(r: Rules, w: World, run: seq<Happening>, k: nat, limit: nat)
    requires Goes(r, w, run) && Begins(w) && Guarded(r, w, run, k, limit) && NobodyElseInvites(run, k)
    requires Occupied(w, k) <= limit
    ensures Exceeded(r, w, run, k, limit) <==> Outrun(r, w, run, k, limit)
  {
    hide Next, Possible, Guarded, Occupied, Others, Joined, Begins, Site;
    if Exceeded(r, w, run, k, limit) {
      var j: nat :| j <= |run| && Occupied(At(r, w, run, j), k) > limit;
      var c := ExcessHasACrossing(r, w, run, k, limit, j);
      AtNext(r, w, run, c);
      OnlyLandingAdds(r, At(r, w, run, c), run[c], k);
      LandsInExcessExactly(r, w, run, k, limit, c);
    }
    if Outrun(r, w, run, k, limit) {
      var i: nat, a: nat, b: nat, j: nat :| OutrunAt(r, w, run, k, limit, i, a, b, j);
      LandsInExcessExactly(r, w, run, k, limit, j);
    }
  }

  // ---- invitations that do not overlap ----------------------------------------------------------------------

  /** Another call of workspace `k` lands something between `b` and `j`. */
  ghost predicate OtherLands(run: seq<Happening>, k: nat, i: nat, b: nat, j: nat) {
    exists c: nat :: b < c < j && c < |run| && run[c].Land? && run[c].k == k && run[c].i != i && run[c].n > 0
  }

  /** Somebody becomes a member of workspace `k` between `a` and `b`. */
  ghost predicate SomebodyJoins(run: seq<Happening>, k: nat, a: nat, b: nat) {
    exists c: nat :: a < c < b && c < |run| && run[c].Outside? && run[c].k == k && run[c].members > 0
  }

  lemma {:induction false} OthersNeedALanding(run: seq<Happening>, k: nat, i: nat, b: nat, j: nat)
    requires b < j <= |run| && NobodyElseInvites(run, k) && run[b] == SeeInvites(i) && !OtherLands(run, k, i, b, j)
    ensures Others(run[b..j], k, i) <= 0
    decreases j
  {
    assert run[b..j][..j - b - 1] == run[b..j - 1] && run[b..j][j - b - 1] == run[j - 1];
    if b < j - 1 {
      OthersNeedALanding(run, k, i, b, j - 1);
    }
  }

  lemma {:induction false} JoinedNeedsAJoin(run: seq<Happening>, k: nat, a: nat, b: nat)
    requires a < b <= |run| && run[a].SeeMembers? && !SomebodyJoins(run, k, a, b)
    ensures Joined(run[a..b], k) <= 0
    decreases b
  {
    assert run[a..b][..b - a - 1] == run[a..b - 1] && run[a..b][b - a - 1] == run[b - 1];
    if a < b - 1 {
      JoinedNeedsAJoin(run, k, a, b - 1);
    }
  }

  /** A guarded call that lands while no other call of its workspace has landed anything since its
      second look, and whose two looks nobody joined in between, keeps the plan. */
  lemma OutrunMeansOverlap(
      r: Rules, w: World, run: seq<Happening>, k: nat, limit: nat, i: nat, a: nat, b: nat, j: nat)
    requires Goes(r, w, run) && Begins(w) && Guarded(r, w, run, k, limit) && NobodyElseInvites(run, k)
    requires OutrunAt(r, w, run, k, limit, i, a, b, j)
    ensures OtherLands(run, k, i, b, j) || SomebodyJoins(run, k, a, b)
  {
    hide Next, Possible, Guarded, Others, Joined, Begins, NobodyElseInvites, Site, OtherLands, SomebodyJoins;
    AtNext(r, w, run, j);
    LandingCall(r, At(r, w, run, j), run[j]);
    SiteStays(r, At(r, w, run, j), run[j], i);
    GuardedKeepsRoom(r, w, run, i, k, limit, j + 1);
    OwnLandingIsNotOthers(run, k, i, b, j);
    if !OtherLands(run, k, i, b, j) && !SomebodyJoins(run, k, a, b) {
      OthersNeedALanding(run, k, i, b, j);
      JoinedNeedsAJoin(run, k, a, b);
      SpareIsLeft(r, At(r, w, run, j), run[j], limit);
    }
  }

  lemma OwnLandingIsNotOthers(run: seq<Happening>, k: nat, i: nat, b: nat, j: nat)
    requires b < j < |run| && run[j].Land? && run[j].i == i
    ensures Others(run[b..j + 1], k, i) == Others(run[b..j], k, i)
  {
    assert run[b..j + 1][..j - b] == run[b..j] && run[b..j + 1][j - b] == run[j];
  }

  lemma SpareIsLeft(r: Rules, w: World, h: Happening, limit: nat)
    requires Possible(w, h) && h.Land? && h.i < |Next(r, w, h).s.calls| && KeepsItsRoom(Next(r, w, h), h.i, limit)
    ensures var v := WatchOf(Next(r, w, h), h.i);
      v.members.Some? && v.pending.Some? && limit - Seen(v) - v.landed >= 0
  {
  }

  /** Calls of workspace `k` keep apart: nobody else lands between a call's second look and its own
      landing, and nobody joins between its looks. */
  ghost predicate Apart(run: seq<Happening>, k: nat) {
    forall i: nat, a: nat, b: nat, j: nat ::
      LookedAt(run, i, a, b) && b < j < |run| && run[j].Land? && run[j].k == k && run[j].i == i ==>
        !OtherLands(run, k, i, b, j) && !SomebodyJoins(run, k, a, b)
  }

  /** Guarded invitations that keep apart never exceed the plan, however many there are. */
  lemma ApartKeepsThePlan(r: Rules, w: World, run: seq<Happening>, k: nat, limit: nat)
    requires Goes(r, w, run) && Begins(w) && Guarded(r, w, run, k, limit) && NobodyElseInvites(run, k)
    requires Occupied(w, k) <= limit && Apart(run, k)
    ensures !Exceeded(r, w, run, k, limit)
  {
    hide Goes, Guarded, Exceeded, OtherLands, SomebodyJoins, NobodyElseInvites;
    ExceededExactly(r, w, run, k, limit);
    if Outrun(r, w, run, k, limit) {
      var i: nat, a: nat, b: nat, j: nat :| OutrunAt(r, w, run, k, limit, i, a, b, j);
      OutrunMeansOverlap(r, w, run, k, limit, i, a, b, j);
    }
  }
}
