/** An operating system that may reuse process ids and re-parent orphans, as seen by one
    observer: a different snapshot at every observation. */
module ProcessWorld {
  import opened Basics

  /** A process for ever: its id together with its time of birth. */
  datatype Ident = Ident(pid: nat, birth: int)

  /** What one look at a process shows: its id and birth, the id of its current parent, the
      profile directories and debugging ports on its command line, and whether it is a zombie. */
  datatype Proc = Proc(pid: nat, birth: int, parent: nat, profiles: set<string>, ports: seq<nat>, zombie: bool)

  datatype Node = Node(device: nat, inode: nat, isDir: bool, isSymlink: bool)

  /** `denied` are the processes that refuse to be inspected; `removable` the directories
      whose removal would succeed. */
  datatype Snapshot = Snapshot(procs: seq<Proc>, denied: set<nat>, dirs: map<string, Node>, removable: set<string>)

  /** Every schedule of the operating system, including its reactions to signals. */
  type World = nat -> Snapshot

  datatype Look = Gone | Denied | Seen(proc: Proc)

  function Who(p: Proc): Ident { Ident(p.pid, p.birth) }

  function Find(procs: seq<Proc>, pid: nat): (r: Option<Proc>)
    ensures r.Some? ==> r.value in procs && r.value.pid == pid
  {
    if |procs| == 0 then None
    else if procs[0].pid == pid then Some(procs[0])
    else Find(procs[1..], pid)
  }

  function Observe(s: Snapshot, pid: nat): Look {
    match Find(s.procs, pid)
    case None => Gone
    case Some(p) => if pid in s.denied then Denied else Seen(p)
  }

  /** Some process with this identity exists, inspectable or not, and is no zombie. */
  predicate Alive(s: Snapshot, id: Ident) {
    var f := Find(s.procs, id.pid);
    f.Some? && f.value.birth == id.birth && !f.value.zombie
  }

  // ---- ancestry -----------------------------------------------------------------------------

  /** Who created whom, fixed for all time. */
  type Lineage = Ident -> Option<Ident>

  function Up(lineage: Lineage, id: Ident, n: nat): Option<Ident>
    decreases n
  {
    if n == 0 then Some(id)
    else match lineage(id)
      case None => None
      case Some(creator) => Up(lineage, creator, n - 1)
  }

  ghost predicate Descends(lineage: Lineage, id: Ident, ancestor: Ident) {
    exists n: nat :: n >= 1 && Up(lineage, id, n) == Some(ancestor)
  }

  lemma {:induction false} UpComposes(lineage: Lineage, a: Ident, b: Ident, m: nat, n: nat)
    requires Up(lineage, a, m) == Some(b)
    ensures Up(lineage, a, m + n) == Up(lineage, b, n)
    decreases m
  {
    if m > 0 {
      UpComposes(lineage, lineage(a).value, b, m - 1, n);
    }
  }

  lemma DescendsTransitive(lineage: Lineage, a: Ident, b: Ident, c: Ident)
    requires Descends(lineage, a, b) && Descends(lineage, b, c)
    ensures Descends(lineage, a, c)
  {
    var m: nat :| m >= 1 && Up(lineage, a, m) == Some(b);
    var n: nat :| n >= 1 && Up(lineage, b, n) == Some(c);
    UpComposes(lineage, a, b, m, n);
  }

  ghost predicate UniquePids(procs: seq<Proc>) {
    forall i, j :: 0 <= i < j < |procs| ==> procs[i].pid != procs[j].pid
  }

  /** All that is asked of the operating system: one process per id, and a live process's current parent is one of
      its creators, direct or - for a re-parented orphan - indirect. */
  ghost predicate Honest(world: World, lineage: Lineage) {
    && (forall t: nat :: UniquePids(world(t).procs))
    && forall t: nat, p: Proc, q: Proc :: p in world(t).procs && q in world(t).procs && p.parent == q.pid ==>
         Descends(lineage, Who(p), Who(q))
  }

  /** `pid` reaches `root` by at most `steps` parent links. */
  predicate Linked(procs: seq<Proc>, pid: nat, root: nat, steps: nat)
    decreases steps
  {
    steps > 0 &&
    var f := Find(procs, pid);
    f.Some? && (f.value.parent == root || Linked(procs, f.value.parent, root, steps - 1))
  }

  /** The recursive children of `root`: linked to it, and not born before it. */
  function Children(procs: seq<Proc>, root: Proc, upTo: nat): (r: seq<Ident>)
    requires upTo <= |procs|
  {
    if upTo == 0 then []
    else
      var p := procs[upTo - 1];
      Children(procs, root, upTo - 1)
      + if p.pid != root.pid && p.birth >= root.birth && Linked(procs, p.pid, root.pid, |procs|) then [Who(p)] else []
  }

  lemma {:induction false} FindUnique(procs: seq<Proc>, p: Proc)
    requires UniquePids(procs) && p in procs
    ensures Find(procs, p.pid) == Some(p)
  {
    if procs[0] != p {
      var i :| 0 < i < |procs| && procs[i] == p;
      assert p == procs[1..][i - 1];
      FindUnique(procs[1..], p);
    }
  }

  lemma {:induction false} LinkedDescends(world: World, lineage: Lineage, t: nat, pid: nat, root: Proc, steps: nat)
    requires Honest(world, lineage) && root in world(t).procs
    requires Linked(world(t).procs, pid, root.pid, steps)
    ensures var f := Find(world(t).procs, pid); f.Some? && Descends(lineage, Who(f.value), Who(root))
    decreases steps
  {
    var p := Find(world(t).procs, pid).value;
    if p.parent != root.pid {
      LinkedDescends(world, lineage, t, p.parent, root, steps - 1);
      var q := Find(world(t).procs, p.parent).value;
      DescendsTransitive(lineage, Who(p), Who(q), Who(root));
    }
  }

  lemma {:induction false} ChildrenDescend(world: World, lineage: Lineage, t: nat, root: Proc, upTo: nat)
    requires Honest(world, lineage) && root in world(t).procs
    requires upTo <= |world(t).procs|
    ensures forall id :: id in Children(world(t).procs, root, upTo) ==> Descends(lineage, id, Who(root))
  {
    if upTo > 0 {
      ChildrenDescend(world, lineage, t, root, upTo - 1);
      var procs, p := world(t).procs, world(t).procs[upTo - 1];
      if Linked(procs, p.pid, root.pid, |procs|) {
        LinkedDescends(world, lineage, t, p.pid, root, |procs|);
        FindUnique(procs, p);
      }
    }
  }
}
