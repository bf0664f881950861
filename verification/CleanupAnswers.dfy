/** When cleanup answers true, what it records, and what makes it doubt - each in both directions
    (core/browser_startup.py, `_OwnedBrowser`). */
module CleanupAnswers {
  import opened Basics
  import opened ProcessWorld
  import opened BrowserCleanup

  // ---- the end of cleanup ---------------------------------------------------------------------------

  /** A process with this identity can be inspected and is no zombie. */
  predicate ShowsLive(s: Snapshot, id: Ident) {
    id.pid !in s.denied &&
    var f := Find(s.procs, id.pid);
    f.Some? && f.value.birth == id.birth && !f.value.zombie
  }

  /** The directory that launch created, still in place: no symbolic link, same device and inode,
      and a name with the prefix that only such directories have. */
  predicate CreatedAtLaunch(k: Key, n: Node) {
    n.isDir && !n.isSymlink && n.device == k.device && n.inode == k.inode && "any-register-browser-" <= k.name
  }

  /** Exactly when the end of cleanup answers true: no doubt before it, no recorded process shows
      itself live in the last look, and the profile is gone or is the directory that launch
      created and can be removed; in the last case, and only then, it is removed. */
  lemma ConcludeExactly(world: World, k: Key, b: Book, at: nat)
    ensures var v, t := Conclude(world, k, b, at), at + |b.known|;
      && (v.ok <==>
            && !b.uncertain
            && (forall i :: 0 <= i < |b.known| ==> !ShowsLive(world(at + i), b.known[i]))
            && (k.profile in world(t).dirs ==>
                  CreatedAtLaunch(k, world(t).dirs[k.profile]) && k.profile in world(t).removable))
      && v.removed == if v.ok && k.profile in world(t).dirs then Some(world(t).dirs[k.profile]) else None
  {
    NobodySeenLive(world, b.known, at, |b.known|);
    forall i | 0 <= i < |b.known|
      ensures SeenLive(world(at + i), b.known[i]) <==> ShowsLive(world(at + i), b.known[i])
    {
    }
    assert forall n :: OwnDirectory(k, n) <==> CreatedAtLaunch(k, n);
    hide LiveOf, LiveRefused, SeenLive, ShowsLive, OwnDirectory, CreatedAtLaunch;
  }

  // ---- recording the family ------------------------------------------------------------------------------

  /** What the command line and the birth of a process must show to count as this launch's: its
      profile, no other debugging port, and a birth at most a second before the launch. */
  predicate Carries(k: Key, p: Proc) {
    k.profile in p.profiles && p.birth >= k.since - 1 && forall port :: port in p.ports ==> port == k.port
  }

  lemma MatchingIsCarrying(k: Key, p: Proc)
    ensures MatchesProfile(k, p) <==> Carries(k, p)
  {
    if MatchesProfile(k, p) {
      forall port | port in p.ports ensures port == k.port {
        var i :| 0 <= i < |p.ports| && p.ports[i] == port;
      }
    }
    if Carries(k, p) {
      forall i | 0 <= i < |p.ports| ensures p.ports[i] == k.port {
        assert p.ports[i] in p.ports;
      }
    }
  }

  /** A chain of listed processes, each the child of the next, the last one a child of `root`. */
  predicate ChildChain(procs: seq<Proc>, root: Proc, chain: seq<Proc>) {
    && |chain| > 0 && (forall i :: 0 <= i < |chain| ==> chain[i] in procs)
    && (forall i :: 0 <= i < |chain| - 1 ==> chain[i].parent == chain[i + 1].pid)
    && chain[|chain| - 1].parent == root.pid
  }

  lemma {:induction false} ChainLinks(procs: seq<Proc>, root: Proc, chain: seq<Proc>, steps: nat)
    requires UniquePids(procs) && ChildChain(procs, root, chain) && |chain| <= steps
    ensures Linked(procs, chain[0].pid, root.pid, steps)
    decreases |chain|
  {
    FindUnique(procs, chain[0]);
    if |chain| > 1 {
      var rest := chain[1..];
      assert forall i :: 0 <= i < |rest| ==> rest[i] == chain[i + 1];
      ChainLinks(procs, root, rest, steps - 1);
    }
  }

  lemma {:induction false} LinkedIsChild(procs: seq<Proc>, root: Proc, p: Proc, upTo: nat)
    requires upTo <= |procs| && p in procs[..upTo] && p.pid != root.pid && p.birth >= root.birth
    requires Linked(procs, p.pid, root.pid, |procs|)
    ensures Who(p) in Children(procs, root, upTo)
  {
    hide Linked;
    if procs[upTo - 1] != p {
      assert p in procs[..upTo - 1];
      LinkedIsChild(procs, root, p, upTo - 1);
    }
  }

  /** The listing of children is complete: it has every process, not born before the root, that
      leads to it by parents, through however many generations. */
  lemma ChildrenAreAll(procs: seq<Proc>, root: Proc, chain: seq<Proc>)
    requires UniquePids(procs) && ChildChain(procs, root, chain) && |chain| <= |procs|
    requires chain[0].pid != root.pid && chain[0].birth >= root.birth
    ensures Who(chain[0]) in Children(procs, root, |procs|)
  {
    ChainLinks(procs, root, chain, |procs|);
    assert procs[..|procs|] == procs;
    LinkedIsChild(procs, root, chain[0], |procs|);
  }

  /** The id of `id` stands in the book, for this process or an earlier one. */
  predicate Listed(known: seq<Ident>, id: Ident) { BirthOf(known, id.pid).Some? }

  lemma {:induction false} AllAreRecorded(known: seq<Ident>, ids: seq<Ident>, id: Ident)
    requires id in ids || Listed(known, id)
    ensures Listed(RecordAll(known, ids), id)
  {
    if |ids| > 0 {
      var before, last := RecordAll(known, ids[..|ids| - 1]), ids[|ids| - 1];
      if id in ids[..|ids| - 1] || Listed(known, id) {
        AllAreRecorded(known, ids[..|ids| - 1], id);
        RecordKeepsBirth(before, last, id.pid);
      } else {
        assert id == last;
        RecordLists(before, last);
      }
    }
  }

  lemma RecordLists(known: seq<Ident>, id: Ident)
    ensures Listed(Record(known, id), id)
  {
    RecordFinds(known, id);
    assert id in Record(known, id) ==> exists i :: 0 <= i < |Record(known, id)| && Record(known, id)[i].pid == id.pid;
  }

  /** Looking at the launched process while it shows its profile and port, and listing its
      children without a refusal, records it and every child; an id that is already recorded
      keeps the process it stands for. */
  lemma FamilyIsRecorded(world: World, k: Key, b: Book, now: nat, root: Proc, again: Proc)
    requires Observe(world(now), k.root.pid) == Seen(root) && Observe(world(now + 1), root.pid) == Seen(again)
    requires Carries(k, root) && k.port in root.ports && again.birth == root.birth
    requires BirthOf(b.known, root.pid).Some? ==> BirthOf(b.known, root.pid).value == root.birth
    requires forall id :: id in Children(world(now + 1).procs, again, |world(now + 1).procs|) ==>
      id.pid !in world(now + 1).denied
    ensures var c := Capture(world, k, b, now);
      && c.uncertain == b.uncertain && Listed(c.known, Who(root))
      && forall id :: id in Children(world(now + 1).procs, again, |world(now + 1).procs|) ==> Listed(c.known, id)
  {
    hide Children, BirthOf, RecordAll;
    MatchingIsCarrying(k, root);
    var children := Children(world(now + 1).procs, again, |world(now + 1).procs|);
    var known1 := Record(b.known, Who(root));
    RecordLists(b.known, Who(root));
    forall id | id in children || id == Who(root) ensures Listed(RecordAll(known1, children), id) {
      AllAreRecorded(known1, children, id);
    }
    assert !AnyDenied(world(now + 1), children);
  }

  // ---- doubt ---------------------------------------------------------------------------------------------------

  /** The launched process is accounted for by a look at `now`: nothing has its id, or another
      process has; or it shows itself as this launch's and its children can be listed; or it has
      ended when the look is over. */
  ghost predicate Accounted(world: World, k: Key, known: seq<Ident>, now: nat) {
    match Observe(world(now), k.root.pid)
    case Gone => true
    case Denied => false
    case Seen(root) =>
      || (exists birth :: birth != root.birth && BirthOf(known, root.pid) == Some(birth))
      || (if Carries(k, root) && k.port in root.ports
          then
            match Observe(world(now + 1), root.pid)
            case Gone => true
            case Denied => false
            case Seen(again) =>
              again.birth == root.birth ==>
                forall id :: id in Children(world(now + 1).procs, again, |world(now + 1).procs|) ==>
                  id.pid !in world(now + 1).denied
          else !Alive(world(now + 1), k.root))
  }

  /** A look at the family raises doubt exactly when it leaves the launched process unaccounted
      for. */
  lemma CaptureDoubtsExactly(world: World, k: Key, b: Book, now: nat)
    ensures Capture(world, k, b, now).uncertain <==> b.uncertain || !Accounted(world, k, b.known, now)
  {
    hide Children, Linked;
    match Observe(world(now), k.root.pid)
    case Seen(root) =>
      MatchingIsCarrying(k, root);
      if BirthOf(b.known, root.pid).Some? {
        var birth := BirthOf(b.known, root.pid).value;
        assert BirthOf(b.known, root.pid) == Some(birth);
      }
    case _ =>
  }

  /** Somebody among `ids`, inspected one after the other from `t` on, refuses. */
  ghost predicate Refuses(world: World, ids: seq<Ident>, t: nat) {
    exists i :: 0 <= i < |ids| && Observe(world(t + i), ids[i].pid).Denied?
  }

  /** Exactly when a sweep ends in doubt: there was doubt before, the launched process was not
      accounted for, somebody refused to be looked at or signalled, or the launched process is
      still there after the signals. */
  lemma SweepDoubtsExactly(world: World, k: Key, b: Book, now: nat)
    ensures var known := FindOrphans(world, k, Capture(world, k, b, now).known, now + 2);
      var t := OrphansDone(world, now + 2);
      var live := LiveOf(world, known, t, |known|);
      var t1 := t + |known|;
      var remaining := StillAlive(world(t1 + |live|), live);
      var t2 := t1 + |live| + 1;
      SweepProcesses(world, k, b, now).book.uncertain <==>
        || b.uncertain || !Accounted(world, k, b.known, now)
        || Refuses(world, known, t) || Refuses(world, live, t1) || Refuses(world, remaining, t2)
        || Alive(world(t2 + |remaining|), k.root)
  {
    hide Capture, FindOrphans, LiveOf, StillAlive, Accounted, Alive, Refuses, OrphansDone, SignalAll, SignalAllRefused;
    CaptureDoubtsExactly(world, k, b, now);
    var known := FindOrphans(world, k, Capture(world, k, b, now).known, now + 2);
    RefusalsAre(world, known, OrphansDone(world, now + 2));
  }

  lemma RefusalsAre(world: World, known: seq<Ident>, t: nat)
    ensures var live := LiveOf(world, known, t, |known|);
      var t1 := t + |known|;
      var remaining := StillAlive(world(t1 + |live|), live);
      var t2 := t1 + |live| + 1;
      && SignalAll(world, known, t).at == t2 + |remaining|
      && (SignalAllRefused(world, known, t) <==>
            Refuses(world, known, t) || Refuses(world, live, t1) || Refuses(world, remaining, t2))
  {
    hide LiveOf, StillAlive, LiveRefused, Signalled;
    var live := LiveOf(world, known, t, |known|);
    var t1 := t + |known|;
    var remaining := StillAlive(world(t1 + |live|), live);
    NobodyRefused(world, known, t, |known|);
    NobodyRefused(world, live, t1, |live|);
    NobodyRefused(world, remaining, t1 + |live| + 1, |remaining|);
  }

  // ---- a cleanup that succeeds --------------------------------------------------------------------------------------

  /** From `now` on nothing runs and nothing changes, and the profile is as launch created it. */
  ghost predicate Quiet(world: World, k: Key, now: nat, node: Node) {
    CreatedAtLaunch(k, node) && forall t: nat :: t >= now ==> IsQuiet(world(t), k, node)
  }

  predicate IsQuiet(s: Snapshot, k: Key, node: Node) {
    s.procs == [] && k.profile in s.dirs && s.dirs[k.profile] == node && k.profile in s.removable
  }

  lemma NothingShows(s: Snapshot, k: Key, node: Node, id: Ident)
    requires IsQuiet(s, k, node)
    ensures Observe(s, id.pid) == Gone && !Alive(s, id) && !ShowsLive(s, id)
  {
  }

  lemma NobodyThere(world: World, k: Key, now: nat, node: Node, known: seq<Ident>, t: nat)
    requires Quiet(world, k, now, node) && t >= now
    ensures LiveOf(world, known, t, |known|) == [] && !Refuses(world, known, t)
    ensures FindOrphans(world, k, known, t) == known
    ensures OrphansDone(world, t) == t + 1
  {
    hide LiveOf;
    NobodySeenLive(world, known, t, |known|);
    assert IsQuiet(world(t), k, node);
    forall i | 0 <= i < |known|
      ensures Observe(world(t + i), known[i].pid) == Gone
    {
      assert IsQuiet(world(t + i), k, node);
      NothingShows(world(t + i), k, node, known[i]);
    }
  }

  lemma NothingSeen(world: World, k: Key, now: nat, node: Node, t: nat)
    requires Quiet(world, k, now, node) && t >= now
    ensures Observe(world(t), k.root.pid) == Gone && !Alive(world(t), k.root)
  {
    assert IsQuiet(world(t), k, node);
    NothingShows(world(t), k, node, k.root);
  }

  /** When everything has ended and the profile lies where launch put it, a whole cleanup without
      earlier doubt answers true and removes exactly that directory, whatever was recorded. */
  lemma QuietCleanupSucceeds(world: World, k: Key, b: Book, now: nat, node: Node)
    requires !b.uncertain && Quiet(world, k, now, node)
    ensures var w := SweepProcesses(world, k, b, now);
      w.asked == [] && w.killed == [] && Conclude(world, k, w.book, w.at).ok
      && Conclude(world, k, w.book, w.at).removed == Some(node)
  {
    hide Capture, FindOrphans, LiveOf, StillAlive, Conclude, Alive, Doubts, SignalAllRefused, ShowsLive, Refuses;
    NothingSeen(world, k, now, node, now);
    CaptureOfNothing(world, k, b, now);
    NobodyThere(world, k, now, node, b.known, now + 2);
    var t := now + 3;
    NobodyThere(world, k, now, node, b.known, t);
    NoneAlive(world(t + |b.known|));
    var hit := SignalAll(world, b.known, t);
    assert hit == Hit([], [], t + |b.known| + 1);
    NobodyThere(world, k, now, node, b.known, hit.at + 1);
    var w := SweepProcesses(world, k, b, now);
    assert w.book.known == b.known && w.at >= now;
    NothingSeen(world, k, now, node, t + |b.known| + 1);
    NothingDoubted(world, k, b, now, t);
    QuietConclusion(world, k, w.book, w.at, now, node);
  }

  lemma CaptureOfNothing(world: World, k: Key, b: Book, now: nat)
    requires Observe(world(now), k.root.pid) == Gone
    ensures Capture(world, k, b, now) == b && Accounted(world, k, b.known, now)
  {
  }

  lemma NoneAlive(s: Snapshot)
    ensures StillAlive(s, []) == []
  {
  }

  lemma NothingDoubted(world: World, k: Key, b: Book, now: nat, t: nat)
    requires !b.uncertain && Accounted(world, k, b.known, now) && Capture(world, k, b, now) == b
    requires FindOrphans(world, k, b.known, now + 2) == b.known && OrphansDone(world, now + 2) == t
    requires LiveOf(world, b.known, t, |b.known|) == [] && StillAlive(world(t + |b.known|), []) == []
    requires !Refuses(world, b.known, t) && !Alive(world(t + |b.known| + 1), k.root)
    ensures !SweepProcesses(world, k, b, now).book.uncertain
  {
    hide Capture, FindOrphans, LiveOf, StillAlive, Alive, SweepProcesses, Accounted, OrphansDone;
    SweepDoubtsExactly(world, k, b, now);
  }

  lemma QuietConclusion(world: World, k: Key, b: Book, at: nat, now: nat, node: Node)
    requires !b.uncertain && Quiet(world, k, now, node) && at >= now
    ensures Conclude(world, k, b, at).ok && Conclude(world, k, b, at).removed == Some(node)
  {
    hide Conclude, ShowsLive;
    ConcludeExactly(world, k, b, at);
    forall i | 0 <= i < |b.known| ensures !ShowsLive(world(at + i), b.known[i]) {
      assert IsQuiet(world(at + i), k, node);
      NothingShows(world(at + i), k, node, b.known[i]);
    }
    assert IsQuiet(world(at + |b.known|), k, node);
  }

  // ---- survivors ---------------------------------------------------------------------------------

  lemma {:induction false} RecordAllGrows(known: seq<Ident>, ids: seq<Ident>, id: Ident)
    requires id in known
    ensures id in RecordAll(known, ids)
  {
    if |ids| > 0 {
      RecordAllGrows(known, ids[..|ids| - 1], id);
    }
  }

  lemma CaptureGrows(world: World, k: Key, b: Book, now: nat, id: Ident)
    requires id in b.known
    ensures id in Capture(world, k, b, now).known
  {
    hide RecordAll, Children, BirthOf, AnyDenied;
    forall ids: seq<Ident>, other: Ident ensures id in RecordAll(Record(b.known, other), ids) {
      assert id in Record(b.known, other);
      RecordAllGrows(Record(b.known, other), ids, id);
    }
    forall other: Ident ensures id in Record(b.known, other) {}
  }

  /** A recorded process that stays live and inspectable throughout a sweep has been asked to end
      and then killed by it, and the cleanup does not answer true while it still does. */
  lemma SweepKillsSurvivors(world: World, k: Key, b: Book, now: nat, id: Ident, until: nat)
    returns (asked: nat, killed: nat)
    requires id in b.known
    requires var w := SweepProcesses(world, k, b, now); until > w.at + |w.book.known|
    requires Survives(world, id, now, until)
    ensures var w := SweepProcesses(world, k, b, now);
      && asked < killed && Signal(Terminate, id, asked) in w.asked && Signal(Kill, id, killed) in w.killed
      && !Conclude(world, k, w.book, w.at).ok
  {
    hide Capture, SignalAll, FindOrphans, OrphansDone, Survives, Doubts, Conclude;
    var known := FindOrphans(world, k, Capture(world, k, b, now).known, now + 2);
    var t := OrphansDone(world, now + 2);
    var hit, w := SignalAll(world, known, t), SweepProcesses(world, k, b, now);
    CaptureGrows(world, k, b, now, id);
    FoundGrow(world, k, Capture(world, k, b, now).known, now + 2, id);
    FoundGrow(world, k, known, hit.at + 1, id);
    HitTakesTime(world, known, t);
    SurvivesWithin(world, id, now, until, t, hit.at);
    asked, killed := SurvivorIsKilled(world, known, t, id);
    SurvivesWithin(world, id, now, until, w.at, w.at + |w.book.known|);
    SurvivorRefusesTrue(world, k, w.book, w.at, id);
  }

  lemma FoundGrow(world: World, k: Key, known: seq<Ident>, now: nat, id: Ident)
    requires id in known
    ensures id in FindOrphans(world, k, known, now) && OrphansDone(world, now) > now
  {
    hide Orphans;
    OrphansGrow(world, k, known, world(now).procs, now + 1, |world(now).procs|);
    PrefixHas(known, FindOrphans(world, k, known, now), id);
  }

  lemma PrefixHas(a: seq<Ident>, b: seq<Ident>, id: Ident)
    requires a <= b && id in a
    ensures id in b
  {
    var i :| 0 <= i < |a| && a[i] == id;
    assert b[i] == id;
  }

  lemma HitTakesTime(world: World, known: seq<Ident>, t: nat)
    ensures SignalAll(world, known, t).at >= t
  {
  }

  lemma SurvivorRefusesTrue(world: World, k: Key, b: Book, at: nat, id: Ident)
    requires id in b.known && Survives(world, id, at, at + |b.known|)
    ensures !Conclude(world, k, b, at).ok
  {
    hide Conclude;
    ConcludeExactly(world, k, b, at);
    var i :| 0 <= i < |b.known| && b.known[i] == id;
    assert SeenLive(world(at + i), id);
    assert ShowsLive(world(at + i), b.known[i]);
  }

  // ---- who is signalled ------------------------------------------------------------

  /** Whoever is signalled was seen on its own or under the launched id with this launch's profile
      on the command line, no other port, and a birth at most a second before the launch - itself
      or an ancestor. */
  lemma SignalledCarried(world: World, lineage: Lineage, k: Key, b: Book, now: nat, s: Signal)
    requires Honest(world, lineage) && AllOwned(world, lineage, k, b.known)
    requires s in SweepProcesses(world, k, b, now).asked || s in SweepProcesses(world, k, b, now).killed
    ensures exists t: nat, p: Proc ::
      p in world(t).procs && Carries(k, p)
        && (Who(p) == s.id || (p.pid == k.root.pid && Descends(lineage, s.id, Who(p))))
  {
    hide SweepProcesses, MatchesProfile, Carries, Honest, Descends;
    SweepIsSafe(world, lineage, k, b, now);
    if Carrier(world, k, s.id) {
      var t: nat, p: Proc :| p in world(t).procs && Who(p) == s.id && MatchesProfile(k, p);
      MatchingIsCarrying(k, p);
    } else {
      var root: Ident :| root.pid == k.root.pid && Carrier(world, k, root) && Descends(lineage, s.id, root);
      var t: nat, p: Proc :| p in world(t).procs && Who(p) == root && MatchesProfile(k, p);
      MatchingIsCarrying(k, p);
    }
  }
}
