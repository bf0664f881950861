/** Ownership bookkeeping and cleanup of one launched browser (core/browser_startup.py,
    `_OwnedBrowser`), as functions of the operating system's schedule.  One examination of a
    process is one observation, "check the identity, then signal" is one, and so is "check
    the directory, then remove it"; the world may change between any two of them. */
module BrowserCleanup {
  import opened Basics
  import opened ProcessWorld

  /** What identifies this launch: its private profile directory (with its name and its
      device and inode), its port, its start time and the process it launched. */
  datatype Key = Key(profile: string, name: string, device: nat, inode: nat, port: nat, since: int, root: Ident)

  /** The recorded identities, in order of recording, and the doubt flag. */
  datatype Book = Book(known: seq<Ident>, uncertain: bool)

  datatype SignalKind = Terminate | Kill
  datatype Signal = Signal(kind: SignalKind, id: Ident, at: nat)

  const PROFILE_PREFIX := "any-register-browser-"

  predicate MatchesProfile(k: Key, p: Proc) {
    p.birth >= k.since - 1 && k.profile in p.profiles && forall i :: 0 <= i < |p.ports| ==> p.ports[i] == k.port
  }

  // ---- recording -----------------------------------------------------------------------------

  function BirthOf(known: seq<Ident>, pid: nat): (r: Option<int>)
    ensures r.Some? <==> exists i :: 0 <= i < |known| && known[i].pid == pid
    ensures r.Some? ==> Ident(pid, r.value) in known
  {
    if |known| == 0 then None
    else if known[0].pid == pid then Some(known[0].birth)
    else BirthOf(known[1..], pid)
  }

  /** A recorded birth is never overwritten. */
  function Record(known: seq<Ident>, id: Ident): seq<Ident> {
    if BirthOf(known, id.pid).Some? then known else known + [id]
  }

  function RecordAll(known: seq<Ident>, ids: seq<Ident>): seq<Ident> {
    if |ids| == 0 then known else Record(RecordAll(known, ids[..|ids| - 1]), ids[|ids| - 1])
  }

  predicate AnyDenied(s: Snapshot, ids: seq<Ident>) {
    exists i :: 0 <= i < |ids| && ids[i].pid in s.denied
  }

  /** The root matched: record it, then whatever its subtree shows at `at`. */
  function CaptureTree(world: World, k: Key, b: Book, root: Proc, at: nat): Book {
    var b1 := b.(known := Record(b.known, Who(root)));
    match Observe(world(at), root.pid)
    case Gone => b1
    case Denied => b1.(uncertain := true)
    case Seen(again) =>
      if again.birth != root.birth then b1
      else
        var children := Children(world(at).procs, again, |world(at).procs|);
        if AnyDenied(world(at), children) then b1.(uncertain := true)
        else b1.(known := RecordAll(b1.known, children))
  }

  /** `_capture`: looks at the root at `now`, at its children (or its exit code) at `now + 1`. */
  function Capture(world: World, k: Key, b: Book, now: nat): Book {
    match Observe(world(now), k.root.pid)
    case Gone => b
    case Denied => b.(uncertain := true)
    case Seen(root) =>
      if BirthOf(b.known, root.pid).Some? && BirthOf(b.known, root.pid).value != root.birth then b
      else if MatchesProfile(k, root) && k.port in root.ports then CaptureTree(world, k, b, root, now + 1)
      else if Alive(world(now + 1), k.root) then b.(uncertain := true)
      else b
  }

  /** The first `upTo` processes of a listing, examined one after the other from `t` on. */
  function Orphans(world: World, k: Key, known: seq<Ident>, listing: seq<Proc>, t: nat, upTo: nat): seq<Ident>
    requires upTo <= |listing|
  {
    if upTo == 0 then known
    else
      var before := Orphans(world, k, known, listing, t, upTo - 1);
      match Observe(world(t + upTo - 1), listing[upTo - 1].pid)
      case Seen(p) => if MatchesProfile(k, p) then Record(before, Who(p)) else before
      case _ => before
  }

  /** `_find_profile_orphans`: lists at `now`, examines from `now + 1`; refusals are ignored. */
  function FindOrphans(world: World, k: Key, known: seq<Ident>, now: nat): seq<Ident> {
    Orphans(world, k, known, world(now).procs, now + 1, |world(now).procs|)
  }

  function OrphansDone(world: World, now: nat): nat { now + 1 + |world(now).procs| }

  // ---- looking and signalling --------------------------------------------------------------------

  predicate SeenLive(s: Snapshot, id: Ident) {
    var look := Observe(s, id.pid);
    look.Seen? && look.proc.birth == id.birth && !look.proc.zombie
  }

  /** `_live` on the first `upTo` recorded identities, one observation each. */
  function LiveOf(world: World, known: seq<Ident>, t: nat, upTo: nat): seq<Ident>
    requires upTo <= |known|
  {
    if upTo == 0 then []
    else
      LiveOf(world, known, t, upTo - 1)
      + if SeenLive(world(t + upTo - 1), known[upTo - 1]) then [known[upTo - 1]] else []
  }

  /** Whether one of those looks was refused. */
  predicate LiveRefused(world: World, known: seq<Ident>, t: nat, upTo: nat)
    requires upTo <= |known|
  {
    upTo > 0 && (Observe(world(t + upTo - 1), known[upTo - 1].pid).Denied? || LiveRefused(world, known, t, upTo - 1))
  }

  lemma {:induction false} NobodyRefused(world: World, known: seq<Ident>, t: nat, upTo: nat)
    requires upTo <= |known|
    ensures LiveRefused(world, known, t, upTo) <==>
              exists i :: 0 <= i < upTo && Observe(world(t + i), known[i].pid).Denied?
  {
    if upTo > 0 {
      NobodyRefused(world, known, t, upTo - 1);
    }
  }

  /** Signals sent to `targets`, one atomic check-and-signal each. */
  function Signalled(world: World, kind: SignalKind, targets: seq<Ident>, t: nat, upTo: nat): seq<Signal>
    requires upTo <= |targets|
  {
    if upTo == 0 then []
    else
      var look := Observe(world(t + upTo - 1), targets[upTo - 1].pid);
      Signalled(world, kind, targets, t, upTo - 1)
      + if look.Seen? && look.proc.birth == targets[upTo - 1].birth
        then [Signal(kind, targets[upTo - 1], t + upTo - 1)] else []
  }

  function StillAlive(s: Snapshot, ids: seq<Ident>): seq<Ident> {
    if |ids| == 0 then []
    else StillAlive(s, ids[..|ids| - 1]) + if Alive(s, ids[|ids| - 1]) then [ids[|ids| - 1]] else []
  }

  // ---- cleanup -------------------------------------------------------------------------------------

  /** Everything up to the final test: the book, the signals sent, the time of the test. */
  datatype Sweep = Sweep(book: Book, asked: seq<Signal>, killed: seq<Signal>, at: nat)

  predicate Doubts(world: World, k: Key, captured: Book, known: seq<Ident>, t: nat) {
    captured.uncertain || SignalAllRefused(world, known, t) || Alive(world(SignalAll(world, known, t).at), k.root)
  }

  function SweepProcesses(world: World, k: Key, b: Book, now: nat): Sweep {
    var captured := Capture(world, k, b, now);
    var known := FindOrphans(world, k, captured.known, now + 2);
    var hit := SignalAll(world, known, OrphansDone(world, now + 2));
    Sweep(
      Book(FindOrphans(world, k, known, hit.at + 1),
           Doubts(world, k, captured, known, OrphansDone(world, now + 2))),
      hit.asked, hit.killed,
      OrphansDone(world, hit.at + 1))
  }

  datatype Hit = Hit(asked: seq<Signal>, killed: seq<Signal>, at: nat)

  /** Look who is live, ask them to end, wait, kill who is still there, wait. */
  function SignalAll(world: World, known: seq<Ident>, t: nat): Hit {
    var live := LiveOf(world, known, t, |known|);
    var t1 := t + |known|;
    var t2 := t1 + |live|;
    var remaining := StillAlive(world(t2), live);
    Hit(Signalled(world, Terminate, live, t1, |live|),
        Signalled(world, Kill, remaining, t2 + 1, |remaining|),
        t2 + 1 + |remaining|)
  }

  /** Whether any of those looks or signals was refused. */
  predicate SignalAllRefused(world: World, known: seq<Ident>, t: nat) {
    var live := LiveOf(world, known, t, |known|);
    var t1 := t + |known|;
    var t2 := t1 + |live|;
    var remaining := StillAlive(world(t2), live);
    LiveRefused(world, known, t, |known|) || LiveRefused(world, live, t1, |live|)
    || LiveRefused(world, remaining, t2 + 1, |remaining|)
  }

  datatype Verdict = Verdict(ok: bool, book: Book, removed: Option<Node>, later: nat)

  predicate OwnDirectory(k: Key, n: Node) {
    n.isDir && !n.isSymlink && n.device == k.device && n.inode == k.inode && PROFILE_PREFIX <= k.name
  }

  /** The end of `cleanup`: doubt and live processes refuse; then the directory goes.
      The doubt flag is read before the last look at the processes, which may still set it. */
  function Conclude(world: World, k: Key, b: Book, at: nat): Verdict {
    if b.uncertain then Verdict(false, b, None, at)
    else
      var n := |b.known|;
      var b' := b.(uncertain := LiveRefused(world, b.known, at, n));
      var t := at + n;
      if LiveOf(world, b.known, at, n) != [] then Verdict(false, b', None, t)
      else if k.profile !in world(t).dirs then Verdict(true, b', None, t + 1)
      else
        var node := world(t).dirs[k.profile];
        if OwnDirectory(k, node) && k.profile in world(t).removable then Verdict(true, b', Some(node), t + 1)
        else Verdict(false, b', None, t + 1)
  }

  // ---- what cleanup may touch --------------------------------------------------------------------

  /** Seen at some time carrying this launch's private profile. */
  ghost predicate Carrier(world: World, k: Key, id: Ident) {
    exists t: nat, p: Proc :: p in world(t).procs && Who(p) == id && MatchesProfile(k, p)
  }

  /** A carrier, or a descendant of a carrier found under the launched process id. */
  ghost predicate Owned(world: World, lineage: Lineage, k: Key, id: Ident) {
    Carrier(world, k, id)
    || exists root: Ident :: root.pid == k.root.pid && Carrier(world, k, root) && Descends(lineage, id, root)
  }

  ghost predicate AllOwned(world: World, lineage: Lineage, k: Key, ids: seq<Ident>) {
    forall i :: 0 <= i < |ids| ==> Owned(world, lineage, k, ids[i])
  }

  lemma {:induction false} RecordAllOwned(world: World, lineage: Lineage, k: Key, known: seq<Ident>, ids: seq<Ident>)
    requires AllOwned(world, lineage, k, known) && AllOwned(world, lineage, k, ids)
    ensures AllOwned(world, lineage, k, RecordAll(known, ids)) && known <= RecordAll(known, ids)
  {
    if |ids| > 0 {
      RecordAllOwned(world, lineage, k, known, ids[..|ids| - 1]);
    }
  }

  lemma ChildrenOwned(world: World, lineage: Lineage, k: Key, t: nat, root: Proc)
    requires Honest(world, lineage) && root in world(t).procs
    requires root.pid == k.root.pid && Carrier(world, k, Who(root))
    ensures AllOwned(world, lineage, k, Children(world(t).procs, root, |world(t).procs|))
  {
    var children := Children(world(t).procs, root, |world(t).procs|);
    ChildrenDescend(world, lineage, t, root, |world(t).procs|);
    forall i | 0 <= i < |children| ensures Owned(world, lineage, k, children[i]) {
      assert children[i] in children;
    }
  }

  lemma RecordOwned(world: World, lineage: Lineage, k: Key, known: seq<Ident>, id: Ident)
    requires AllOwned(world, lineage, k, known) && Carrier(world, k, id)
    ensures AllOwned(world, lineage, k, Record(known, id)) && known <= Record(known, id)
  {
  }

  lemma CaptureTreeOwned(world: World, lineage: Lineage, k: Key, b: Book, root: Proc, at: nat)
    requires Honest(world, lineage) && AllOwned(world, lineage, k, b.known)
    requires root.pid == k.root.pid && Carrier(world, k, Who(root))
    ensures var known' := CaptureTree(world, k, b, root, at).known;
            AllOwned(world, lineage, k, known') && b.known <= known'
  {
    RecordOwned(world, lineage, k, b.known, Who(root));
    var known1 := Record(b.known, Who(root));
    var look := Observe(world(at), root.pid);
    if look.Seen? && look.proc.birth == root.birth {
      assert Who(look.proc) == Who(root);
      ChildrenOwned(world, lineage, k, at, look.proc);
      RecordAllOwned(world, lineage, k, known1, Children(world(at).procs, look.proc, |world(at).procs|));
    }
  }

  lemma CaptureOwned(world: World, lineage: Lineage, k: Key, b: Book, now: nat)
    requires Honest(world, lineage) && AllOwned(world, lineage, k, b.known)
    ensures var known' := Capture(world, k, b, now).known;
            AllOwned(world, lineage, k, known') && b.known <= known'
  {
    var look := Observe(world(now), k.root.pid);
    if look.Seen? && MatchesProfile(k, look.proc) {
      CarrierSeen(world, k, now, look.proc);
      CaptureTreeOwned(world, lineage, k, b, look.proc, now + 1);
    }
  }

  lemma CarrierSeen(world: World, k: Key, t: nat, p: Proc)
    requires p in world(t).procs && MatchesProfile(k, p)
    ensures Carrier(world, k, Who(p))
  {
  }

  lemma CaptureKeepsDoubt(world: World, k: Key, b: Book, now: nat)
    requires b.uncertain
    ensures Capture(world, k, b, now).uncertain
  {
  }

  lemma {:induction false} OrphansOwned(
      world: World, lineage: Lineage, k: Key, known: seq<Ident>, listing: seq<Proc>, t: nat, upTo: nat)
    requires AllOwned(world, lineage, k, known) && upTo <= |listing|
    ensures var known' := Orphans(world, k, known, listing, t, upTo);
            AllOwned(world, lineage, k, known') && known <= known'
  {
    if upTo > 0 {
      OrphansOwned(world, lineage, k, known, listing, t, upTo - 1);
      match Observe(world(t + upTo - 1), listing[upTo - 1].pid)
      case Seen(p) =>
        if MatchesProfile(k, p) {
          assert Carrier(world, k, Who(p));
        }
      case _ =>
    }
  }

  predicate Among(ids: seq<Ident>, known: seq<Ident>) {
    forall i :: 0 <= i < |ids| ==> ids[i] in known
  }

  lemma {:induction false} LiveAreKnown(world: World, known: seq<Ident>, t: nat, upTo: nat)
    requires upTo <= |known|
    ensures Among(LiveOf(world, known, t, upTo), known)
  {
    if upTo > 0 {
      LiveAreKnown(world, known, t, upTo - 1);
    }
  }

  lemma {:induction false} NobodySeenLive(world: World, known: seq<Ident>, t: nat, upTo: nat)
    requires upTo <= |known|
    ensures LiveOf(world, known, t, upTo) == [] <==> forall i :: 0 <= i < upTo ==> !SeenLive(world(t + i), known[i])
  {
    hide SeenLive;
    if upTo > 0 {
      NobodySeenLive(world, known, t, upTo - 1);
    }
  }

  lemma {:induction false} StillAliveAmong(s: Snapshot, ids: seq<Ident>, known: seq<Ident>)
    requires Among(ids, known)
    ensures Among(StillAlive(s, ids), known)
  {
    if |ids| > 0 {
      StillAliveAmong(s, ids[..|ids| - 1], known);
    }
  }

  /** The identity check at the moment of signalling: what is hit is the recorded process,
      whoever else may have held its id before or since. */
  ghost predicate HitsItsTarget(world: World, s: Signal) {
    exists p: Proc :: p in world(s.at).procs && Who(p) == s.id
  }

  /** Every signal went to a recorded process and hit it. */
  ghost predicate Aimed(world: World, known: seq<Ident>, signals: seq<Signal>) {
    forall i :: 0 <= i < |signals| ==> signals[i].id in known && HitsItsTarget(world, signals[i])
  }

  lemma {:induction false} SignalsHit(
      world: World, known: seq<Ident>, kind: SignalKind, targets: seq<Ident>, t: nat, upTo: nat)
    requires upTo <= |targets| && Among(targets, known)
    ensures Aimed(world, known, Signalled(world, kind, targets, t, upTo))
  {
    if upTo > 0 {
      SignalsHit(world, known, kind, targets, t, upTo - 1);
      var look := Observe(world(t + upTo - 1), targets[upTo - 1].pid);
      if look.Seen? && look.proc.birth == targets[upTo - 1].birth {
        assert HitsItsTarget(world, Signal(kind, targets[upTo - 1], t + upTo - 1)) by {
          assert Who(look.proc) == targets[upTo - 1];
        }
      }
    }
  }

  /** Only recorded processes are hit. */
  lemma SignalAllHits(world: World, known: seq<Ident>, t: nat)
    ensures Aimed(world, known, SignalAll(world, known, t).asked)
    ensures Aimed(world, known, SignalAll(world, known, t).killed)
  {
    var live := LiveOf(world, known, t, |known|);
    LiveAreKnown(world, known, t, |known|);
    var t1 := t + |known|;
    var t2 := t1 + |live|;
    var remaining := StillAlive(world(t2), live);
    StillAliveAmong(world(t2), live, known);
    SignalsHit(world, known, Terminate, live, t1, |live|);
    SignalsHit(world, known, Kill, remaining, t2 + 1, |remaining|);
  }

  /** The book only grows and stays owned. */
  lemma SweepKeepsBook(world: World, lineage: Lineage, k: Key, b: Book, now: nat)
    requires Honest(world, lineage) && AllOwned(world, lineage, k, b.known)
    ensures var known' := SweepProcesses(world, k, b, now).book.known;
            AllOwned(world, lineage, k, known') && b.known <= known'
  {
    hide Capture, FindOrphans, SignalAll, SignalAllRefused, AllOwned;
    var known1 := Capture(world, k, b, now).known;
    CaptureOwned(world, lineage, k, b, now);
    var known2 := FindOrphans(world, k, known1, now + 2);
    FoundOwned(world, lineage, k, known1, now + 2);
    var at := SignalAll(world, known2, OrphansDone(world, now + 2)).at + 1;
    FoundOwned(world, lineage, k, known2, at);
  }

  /** Doubt, once there, is still there at the final test. */
  lemma SweepKeepsDoubt(world: World, k: Key, b: Book, now: nat)
    requires b.uncertain
    ensures SweepProcesses(world, k, b, now).book.uncertain
  {
    CaptureKeepsDoubt(world, k, b, now);
  }

  lemma FoundOwned(world: World, lineage: Lineage, k: Key, known: seq<Ident>, now: nat)
    requires AllOwned(world, lineage, k, known)
    ensures var known' := FindOrphans(world, k, known, now); AllOwned(world, lineage, k, known') && known <= known'
  {
    OrphansOwned(world, lineage, k, known, world(now).procs, now + 1, |world(now).procs|);
  }

  lemma {:induction false} OrphansGrow(world: World, k: Key, known: seq<Ident>, listing: seq<Proc>, t: nat, upTo: nat)
    requires upTo <= |listing|
    ensures known <= Orphans(world, k, known, listing, t, upTo)
  {
    if upTo > 0 {
      OrphansGrow(world, k, known, listing, t, upTo - 1);
    }
  }

  lemma HitsThenGrows(world: World, k: Key, known: seq<Ident>, t: nat)
    ensures var hit := SignalAll(world, known, t);
            var known' := FindOrphans(world, k, known, hit.at + 1);
            Aimed(world, known', hit.asked) && Aimed(world, known', hit.killed)
  {
    var hit := SignalAll(world, known, t);
    SignalAllHits(world, known, t);
    OrphansGrow(world, k, known, world(hit.at + 1).procs, hit.at + 2, |world(hit.at + 1).procs|);
    var known' := FindOrphans(world, k, known, hit.at + 1);
    AimedGrows(world, known, known', hit.asked);
    AimedGrows(world, known, known', hit.killed);
  }

  lemma SweepHitsRecorded(world: World, k: Key, b: Book, now: nat)
    ensures var w := SweepProcesses(world, k, b, now);
            Aimed(world, w.book.known, w.asked) && Aimed(world, w.book.known, w.killed)
  {
    var known := FindOrphans(world, k, Capture(world, k, b, now).known, now + 2);
    HitsThenGrows(world, k, known, OrphansDone(world, now + 2));
  }

  lemma AimedGrows(world: World, known: seq<Ident>, known': seq<Ident>, signals: seq<Signal>)
    requires Aimed(world, known, signals) && known <= known'
    ensures Aimed(world, known', signals)
  {
    forall i | 0 <= i < |signals| ensures signals[i].id in known' {
      var j :| 0 <= j < |known| && known[j] == signals[i].id;
      assert known'[j] == known[j];
    }
  }

  ghost predicate Safe(world: World, lineage: Lineage, k: Key, signals: seq<Signal>) {
    forall i :: 0 <= i < |signals| ==> Owned(world, lineage, k, signals[i].id) && HitsItsTarget(world, signals[i])
  }

  lemma AimedAtOwned(world: World, lineage: Lineage, k: Key, known: seq<Ident>, signals: seq<Signal>)
    requires Aimed(world, known, signals) && AllOwned(world, lineage, k, known)
    ensures Safe(world, lineage, k, signals)
  {
    forall i | 0 <= i < |signals| ensures Owned(world, lineage, k, signals[i].id) {
      var j :| 0 <= j < |known| && known[j] == signals[i].id;
    }
  }

  /** Main safety theorem: over every schedule, whatever cleanup signals is owned by this
      launch and is still the very process that was recorded. */
  lemma SweepIsSafe(world: World, lineage: Lineage, k: Key, b: Book, now: nat)
    requires Honest(world, lineage) && AllOwned(world, lineage, k, b.known)
    ensures Safe(world, lineage, k, SweepProcesses(world, k, b, now).asked)
    ensures Safe(world, lineage, k, SweepProcesses(world, k, b, now).killed)
  {
    var w := SweepProcesses(world, k, b, now);
    SweepHitsRecorded(world, k, b, now);
    SweepKeepsBook(world, lineage, k, b, now);
    AimedAtOwned(world, lineage, k, w.book.known, w.asked);
    AimedAtOwned(world, lineage, k, w.book.known, w.killed);
  }

  /** If the profile is private - only the launched process and its descendants ever carry
      it - everything owned is the launched process or one of its descendants. */
  lemma PrivateProfileFamily(world: World, lineage: Lineage, k: Key, id: Ident)
    requires Owned(world, lineage, k, id)
    requires forall c: Ident :: Carrier(world, k, c) ==> c == k.root || Descends(lineage, c, k.root)
    ensures id == k.root || Descends(lineage, id, k.root)
  {
    if !Carrier(world, k, id) {
      var root: Ident :| root.pid == k.root.pid && Carrier(world, k, root) && Descends(lineage, id, root);
      if root != k.root {
        DescendsTransitive(lineage, id, root, k.root);
      }
    }
  }

  // ---- what a positive answer means ------------------------------------------------------------------

  /** `ok` comes only from an undoubting book; it says that no recorded process was seen
      live in the last look, and that the directory is gone or was removed - and what was
      removed is the directory created at launch. */
  lemma ConcludeMeans(world: World, k: Key, b: Book, at: nat)
    ensures var v := Conclude(world, k, b, at);
            && v.book.known == b.known
            && (b.uncertain ==> !v.ok && v.book.uncertain && v.removed == None)
            && (v.ok ==> forall i :: 0 <= i < |b.known| ==>
                  !Alive(world(at + i), b.known[i]) || b.known[i].pid in world(at + i).denied)
            && (v.ok ==> v.removed.Some? || k.profile !in world(at + |b.known|).dirs)
            && (v.removed.Some? ==> v.ok && OwnDirectory(k, v.removed.value))
  {
    NobodySeenLive(world, b.known, at, |b.known|);
    if Conclude(world, k, b, at).ok {
      forall i | 0 <= i < |b.known|
        ensures !Alive(world(at + i), b.known[i]) || b.known[i].pid in world(at + i).denied
      {
        assert !SeenLive(world(at + i), b.known[i]);
      }
    }
  }

  /** The code's promise "true means nothing recorded is still live and no doubt is left"
      holds exactly when no recorded process refused the last look. */
  lemma PositiveAnswerIsCertain(world: World, k: Key, b: Book, at: nat)
    requires Conclude(world, k, b, at).ok
    ensures (!Conclude(world, k, b, at).book.uncertain
             && forall i :: 0 <= i < |b.known| ==> !Alive(world(at + i), b.known[i]))
            <==> !LiveRefused(world, b.known, at, |b.known|)
  {
    NobodySeenLive(world, b.known, at, |b.known|);
    NobodyRefused(world, b.known, at, |b.known|);
    forall i | 0 <= i < |b.known| && !LiveRefused(world, b.known, at, |b.known|)
      ensures !Alive(world(at + i), b.known[i])
    {
      assert !SeenLive(world(at + i), b.known[i]);
    }
  }

  // ---- nothing live is passed over ------------------------------------------------------------------

  lemma {:induction false} LiveOfContains(world: World, known: seq<Ident>, t: nat, upTo: nat, i: nat)
    requires i < upTo <= |known| && SeenLive(world(t + i), known[i])
    ensures known[i] in LiveOf(world, known, t, upTo)
  {
    if i < upTo - 1 {
      LiveOfContains(world, known, t, upTo - 1, i);
    }
  }

  lemma {:induction false} SignalledContains(
      world: World, kind: SignalKind, targets: seq<Ident>, t: nat, upTo: nat, i: nat)
    requires i < upTo <= |targets| && SeenLive(world(t + i), targets[i])
    ensures Signal(kind, targets[i], t + i) in Signalled(world, kind, targets, t, upTo)
  {
    if i < upTo - 1 {
      SignalledContains(world, kind, targets, t, upTo - 1, i);
    }
  }

  lemma {:induction false} StillAliveContains(s: Snapshot, ids: seq<Ident>, id: Ident)
    requires id in ids && Alive(s, id)
    ensures id in StillAlive(s, ids)
  {
    if ids[|ids| - 1] != id {
      StillAliveContains(s, ids[..|ids| - 1], id);
    }
  }

  /** `id` is live and inspectable at every time of the interval. */
  ghost predicate Survives(world: World, id: Ident, from: nat, until: nat) {
    forall u: nat :: from <= u < until ==> SeenLive(world(u), id)
  }

  lemma SignalledTo(world: World, kind: SignalKind, targets: seq<Ident>, t: nat, id: Ident) returns (at: nat)
    requires id in targets && Survives(world, id, t, t + |targets|)
    ensures t <= at < t + |targets| && Signal(kind, id, at) in Signalled(world, kind, targets, t, |targets|)
  {
    var i :| 0 <= i < |targets| && targets[i] == id;
    SignalledContains(world, kind, targets, t, |targets|, i);
    at := t + i;
  }

  lemma SurvivorIsListed(world: World, known: seq<Ident>, t: nat, id: Ident)
    requires id in known && Survives(world, id, t, t + |known|)
    ensures id in LiveOf(world, known, t, |known|)
  {
    var i :| 0 <= i < |known| && known[i] == id;
    LiveOfContains(world, known, t, |known|, i);
  }

  lemma SurvivorRemains(world: World, ids: seq<Ident>, t: nat, id: Ident)
    requires id in ids && Survives(world, id, t, t + 1)
    ensures id in StillAlive(world(t), ids)
  {
    assert SeenLive(world(t), id);
    StillAliveContains(world(t), ids, id);
  }

  lemma SurvivesWithin(world: World, id: Ident, from: nat, until: nat, from': nat, until': nat)
    requires Survives(world, id, from, until) && from <= from' && until' <= until
    ensures Survives(world, id, from', until')
  {
  }

  lemma SurvivorIsAsked(world: World, known: seq<Ident>, t: nat, until: nat, id: Ident) returns (asked: nat)
    requires id in known && Survives(world, id, t, until)
    requires until >= t + |known| + |LiveOf(world, known, t, |known|)|
    ensures asked < t + |known| + |LiveOf(world, known, t, |known|)|
    ensures var live := LiveOf(world, known, t, |known|);
            id in live && Signal(Terminate, id, asked) in Signalled(world, Terminate, live, t + |known|, |live|)
  {
    hide LiveOf, Signalled, Survives;
    var live := LiveOf(world, known, t, |known|);
    SurvivesWithin(world, id, t, until, t, t + |known|);
    SurvivorIsListed(world, known, t, id);
    SurvivesWithin(world, id, t, until, t + |known|, t + |known| + |live|);
    asked := SignalledTo(world, Terminate, live, t + |known|, id);
  }

  lemma SurvivorIsKilledAfter(world: World, live: seq<Ident>, t: nat, until: nat, id: Ident) returns (killed: nat)
    requires id in live && Survives(world, id, t, until)
    requires until >= t + 1 + |StillAlive(world(t), live)|
    ensures t < killed
    ensures var remaining := StillAlive(world(t), live);
            Signal(Kill, id, killed) in Signalled(world, Kill, remaining, t + 1, |remaining|)
  {
    var remaining := StillAlive(world(t), live);
    SurvivesWithin(world, id, t, until, t, t + 1);
    SurvivorRemains(world, live, t, id);
    SurvivesWithin(world, id, t, until, t + 1, t + 1 + |remaining|);
    killed := SignalledTo(world, Kill, remaining, t + 1, id);
  }

  /** A recorded process that stays live and inspectable is first asked to terminate and,
      having survived that, is killed. */
  lemma SurvivorIsKilled(world: World, known: seq<Ident>, t: nat, id: Ident) returns (asked: nat, killed: nat)
    requires id in known && Survives(world, id, t, SignalAll(world, known, t).at)
    ensures asked < killed
    ensures Signal(Terminate, id, asked) in SignalAll(world, known, t).asked
    ensures Signal(Kill, id, killed) in SignalAll(world, known, t).killed
  {
    hide LiveOf, StillAlive, Signalled, Survives;
    var until := SignalAll(world, known, t).at;
    var live := LiveOf(world, known, t, |known|);
    var t2 := t + |known| + |live|;
    asked := SurvivorIsAsked(world, known, t, until, id);
    SurvivesWithin(world, id, t, until, t2, until);
    killed := SurvivorIsKilledAfter(world, live, t2, until, id);
  }

  /** A listed process that shows this launch's profile when examined ends up recorded,
      unless its id already stands for an earlier recorded process. */
  lemma {:induction false} CarrierIsFound(
      world: World, k: Key, known: seq<Ident>, listing: seq<Proc>, t: nat, upTo: nat, i: nat)
    requires i < upTo <= |listing|
    requires var look := Observe(world(t + i), listing[i].pid); look.Seen? && MatchesProfile(k, look.proc)
    ensures var id := Who(Observe(world(t + i), listing[i].pid).proc);
            var known' := Orphans(world, k, known, listing, t, upTo);
            id in known' || (BirthOf(known', id.pid).Some? && BirthOf(known', id.pid).value != id.birth)
  {
    var id := Who(Observe(world(t + i), listing[i].pid).proc);
    var before := Orphans(world, k, known, listing, t, upTo - 1);
    if i < upTo - 1 {
      CarrierIsFound(world, k, known, listing, t, upTo - 1, i);
      OrphansGrow(world, k, known, listing, t, upTo - 1);
      if BirthOf(before, id.pid).Some? {
        RecordKeepsBirth(before, Who(listing[upTo - 1]), id.pid);
        match Observe(world(t + upTo - 1), listing[upTo - 1].pid)
        case Seen(p) => RecordKeepsBirth(before, Who(p), id.pid);
        case _ =>
      }
    } else {
      RecordFinds(before, id);
    }
  }

  lemma {:induction false} RecordKeepsBirth(known: seq<Ident>, id: Ident, pid: nat)
    requires BirthOf(known, pid).Some?
    ensures BirthOf(Record(known, id), pid) == BirthOf(known, pid)
  {
    AppendKeepsBirth(known, id, pid);
  }

  lemma {:induction false} AppendKeepsBirth(known: seq<Ident>, id: Ident, pid: nat)
    requires BirthOf(known, pid).Some?
    ensures BirthOf(known + [id], pid) == BirthOf(known, pid)
  {
    if known[0].pid != pid {
      assert (known + [id])[1..] == known[1..] + [id];
      AppendKeepsBirth(known[1..], id, pid);
    }
  }

  lemma RecordFinds(known: seq<Ident>, id: Ident)
    ensures id in Record(known, id)
      || (BirthOf(Record(known, id), id.pid).Some? && BirthOf(Record(known, id), id.pid).value != id.birth)
  {
    if BirthOf(known, id.pid).Some? && BirthOf(known, id.pid).value == id.birth {
      assert id in known;
    }
  }

  // ---- a positive answer with doubt ----------------------------------------------------------------

  function Child(): Proc { Proc(7, 10, 1, {"/tmp/p"}, [9], false) }

  function ChildKey(): Key { Key("/tmp/p", PROFILE_PREFIX + "x", 0, 1, 9, 0, Ident(5, 5)) }

  /** The launched process is gone; an orphaned child with its profile shows up at `from` and
      refuses exactly one inspection, two observations later.  Nobody is its descendant. */
  function LateChild(from: nat): World {
    t => Snapshot(if t < from then [] else [Child()], if t == from + 2 then {7} else {}, map[], {})
  }

  /** Nobody created anybody. */
  function NoLineage(): Lineage { id => None }

  lemma LateChildIsHonest(from: nat)
    ensures Honest(LateChild(from), NoLineage())
  {
    assert Child().pid == 7 && Child().parent == 1;
    forall t: nat, p: Proc, q: Proc | p in LateChild(from)(t).procs && q in LateChild(from)(t).procs
      ensures p.parent != q.pid
    {
      assert p == Child() && q == Child();
    }
  }

  lemma LateChildIsThere(from: nat, t: nat)
    requires t >= from
    ensures Find(LateChild(from)(t).procs, 7) == Some(Child()) && Alive(LateChild(from)(t), Who(Child()))
  {
    assert LateChild(from)(t).procs[0] == Child();
  }

  lemma NobodyThereYet(from: nat, t: nat, pid: nat)
    requires t < from || pid != 7
    ensures Observe(LateChild(from)(t), pid) == Gone && !Alive(LateChild(from)(t), Ident(pid, 5))
  {
    assert Child().pid == 7;
    if t >= from {
      assert LateChild(from)(t).procs == [Child()] && [Child()][1..] == [];
    }
  }

  /** The whole sweep, started five observations before the child shows up, records it in its
      second scan and ends without doubt. */
  lemma SweepFindsLateChild(now: nat)
    ensures SweepProcesses(LateChild(now + 5), ChildKey(), Book([], false), now)
         == Sweep(Book([Who(Child())], false), [], [], now + 7)
  {
    var w, k := LateChild(now + 5), ChildKey();
    NobodyThereYet(now + 5, now, 5);
    assert Capture(w, k, Book([], false), now) == Book([], false);
    assert FindOrphans(w, k, [], now + 2) == [] && OrphansDone(w, now + 2) == now + 3;
    QuietSignals(w, now + 3);
    NobodyThereYet(now + 5, now + 4, 5);
    SecondScan(now);
    hide Capture, FindOrphans, SignalAll, SignalAllRefused, OrphansDone, LateChild;
  }

  lemma QuietSignals(w: World, t: nat)
    ensures SignalAll(w, [], t) == Hit([], [], t + 1) && !SignalAllRefused(w, [], t)
  {
    assert LiveOf(w, [], t, 0) == [] && StillAlive(w(t), []) == [];
  }

  lemma SecondScan(now: nat)
    ensures FindOrphans(LateChild(now + 5), ChildKey(), [], now + 5) == [Who(Child())]
    ensures OrphansDone(LateChild(now + 5), now + 5) == now + 7
  {
    var w := LateChild(now + 5);
    LateChildIsThere(now + 5, now + 6);
    assert Observe(w(now + 6), 7) == Seen(Child());
    assert w(now + 5).procs == [Child()];
    assert Orphans(w, ChildKey(), [], [Child()], now + 6, 0) == [];
    assert Orphans(w, ChildKey(), [], [Child()], now + 6, 1) == [Who(Child())];
  }

  /** The counterexample to "true means certain", for a whole cleanup: the child is alive from
      its appearance on, its last inspection is refused, and cleanup answers true with the doubt
      flag raised. */
  lemma PositiveAnswerMayDoubt(now: nat)
    ensures var world := LateChild(now + 5);
      var w := SweepProcesses(world, ChildKey(), Book([], false), now);
      var v := Conclude(world, ChildKey(), w.book, w.at);
      && Honest(world, NoLineage())
      && v == Verdict(true, Book([Who(Child())], true), None, now + 9)
      && forall t: nat :: t >= now + 5 ==> Alive(world(t), Who(Child()))
  {
    SweepFindsLateChild(now);
    LateChildIsHonest(now + 5);
    var world, b := LateChild(now + 5), Book([Who(Child())], false);
    LateChildIsThere(now + 5, now + 7);
    assert Observe(world(now + 7), 7) == Denied;
    assert LiveOf(world, b.known, now + 7, 0) == [] && LiveOf(world, b.known, now + 7, 1) == [];
    forall t: nat | t >= now + 5 ensures Alive(world(t), Who(Child())) {
      LateChildIsThere(now + 5, t);
    }
    hide SweepProcesses;
  }
}
