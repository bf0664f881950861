/** Packing the collected files and the final status of a registration run (api/tasks.py,
    `_build_oauth_zip` and the end of `_run_register`). */
module Archive {
  import opened Basics
  import opened Decimal
  import DispatchSpec
  import DispatchTheorems

  // ---- file names -------------------------------------------------------------------------

  /** Position just after the last '/', 0 if there is none. */
  function AfterLastSlash(path: string): (n: nat)
    ensures n <= |path|
    ensures forall i :: n <= i < |path| ==> path[i] != '/'
  {
    if |path| == 0 then 0
    else if path[|path| - 1] == '/' then |path|
    else AfterLastSlash(path[..|path| - 1])
  }

  function Basename(path: string): string {
    path[AfterLastSlash(path)..]
  }

  /** Position of the last '.', |name| if there is none. */
  function LastDot(name: string, from: nat): (n: nat)
    requires from <= |name|
    ensures n == |name| || (n < from && name[n] == '.')
    ensures forall i :: 0 <= i < from && (n < i || n == |name|) ==> name[i] != '.'
    decreases from
  {
    if from == 0 then |name|
    else if name[from - 1] == '.' then from - 1
    else LastDot(name, from - 1)
  }

  /** Stem and extension; leading dots belong to the stem, a missing extension is ".json". */
  function SplitName(name: string): (r: (string, string))
    ensures r.1 != ""
    ensures r.0 + r.1 == name || (r.0 == name && r.1 == ".json")
  {
    var dot := LastDot(name, |name|);
    if dot < |name| && exists i :: 0 <= i < dot && name[i] != '.' then (name[..dot], name[dot..])
    else (name, ".json")
  }

  lemma {:induction false} LastSlashOfSum(dir: string, name: string)
    requires '/' !in name
    ensures AfterLastSlash(dir + "/" + name) == |dir| + 1
  {
    var path := dir + "/" + name;
    if name == "" {
      assert path[|path| - 1] == '/';
    } else {
      assert path[..|path| - 1] == dir + "/" + name[..|name| - 1];
      assert path[|path| - 1] == name[|name| - 1];
      LastSlashOfSum(dir, name[..|name| - 1]);
    }
  }

  /** The file's own name: what follows the last slash of its path. */
  lemma BasenameExactly(dir: string, name: string)
    requires '/' !in name
    ensures Basename(dir + "/" + name) == name
  {
    LastSlashOfSum(dir, name);
    assert (dir + "/" + name)[|dir| + 1..] == name;
  }

  lemma {:induction false} LastDotOfSum(name: string, dot: nat, from: nat)
    requires dot < from <= |name| && name[dot] == '.' && forall i :: dot < i < from ==> name[i] != '.'
    ensures LastDot(name, from) == dot
    decreases from
  {
    if from - 1 > dot {
      LastDotOfSum(name, dot, from - 1);
    }
  }

  /** The extension starts at the last dot, if the stem has anything but dots. */
  lemma SplitsAtLastDot(stem: string, ext: string)
    requires '.' !in ext && exists i :: 0 <= i < |stem| && stem[i] != '.'
    ensures SplitName(stem + "." + ext) == (stem, "." + ext)
  {
    var name := stem + "." + ext;
    LastDotOfSum(name, |stem|, |name|);
    assert name[..|stem|] == stem && name[|stem|..] == "." + ext;
    var i :| 0 <= i < |stem| && stem[i] != '.';
    assert name[i] == stem[i];
  }

  lemma {:induction false} NoDot(name: string, from: nat)
    requires from <= |name| && '.' !in name
    ensures LastDot(name, from) == |name|
    decreases from
  {
    if from > 0 {
      assert name[from - 1] in name;
      NoDot(name, from - 1);
    }
  }

  /** A name without a dot is given one extension. */
  lemma NameWithoutDot(name: string)
    requires '.' !in name
    ensures SplitName(name) == (name, ".json")
  {
    NoDot(name, |name|);
  }

  /** The names tried for one file: the plain name, then "_2", "_3", ... */
  function Candidate(stem: string, ext: string, k: nat): string {
    if k <= 1 then stem + ext else stem + "_" + Numeral(k) + ext
  }

  /** Different counters give different names, so the search can not cycle. */
  lemma CandidatesDiffer(stem: string, ext: string, j: nat, k: nat)
    requires 1 <= j < k
    ensures Candidate(stem, ext, j) != Candidate(stem, ext, k)
  {
    if j == 1 {
      assert |Candidate(stem, ext, k)| > |Candidate(stem, ext, j)|;
    } else if Candidate(stem, ext, j) == Candidate(stem, ext, k) {
      var a, b := Candidate(stem, ext, j), Candidate(stem, ext, k);
      assert a[|stem| + 1..|a| - |ext|] == Numeral(j);
      assert b[|stem| + 1..|b| - |ext|] == Numeral(k);
      NumeralInjective(j, k);
    }
  }

  ghost predicate FirstFree(stem: string, ext: string, seen: set<string>, name: string) {
    exists k :: 1 <= k && name == Candidate(stem, ext, k) && name !in seen
                && forall j :: 1 <= j < k ==> Candidate(stem, ext, j) in seen
  }

  function Present(paths: seq<string>, onDisk: set<string>): seq<string> {
    if |paths| == 0 then []
    else Present(paths[..|paths| - 1], onDisk)
         + if paths[|paths| - 1] in onDisk then [paths[|paths| - 1]] else []
  }

  lemma {:induction false} PresentSize(paths: seq<string>, onDisk: set<string>)
    ensures |Present(paths, onDisk)| <= |paths|
    ensures |Present(paths, onDisk)| == |paths| <==> forall i :: 0 <= i < |paths| ==> paths[i] in onDisk
  {
    if |paths| > 0 {
      PresentSize(paths[..|paths| - 1], onDisk);
    }
  }

  function Taken(names: seq<string>): set<string> {
    set n | n in names
  }

  /** Each name is the first free candidate given the names before it. */
  ghost predicate NamedInOrder(paths: seq<string>, names: seq<string>) {
    && |names| == |paths|
    && forall i :: 0 <= i < |names| ==>
         var (stem, ext) := SplitName(Basename(paths[i]));
         FirstFree(stem, ext, Taken(names[..i]), names[i])
  }

  /** Searching for a free name ends: each refused candidate is a different member of `seen`. */
  method PickName(stem: string, ext: string, seen: set<string>) returns (name: string)
    ensures FirstFree(stem, ext, seen, name)
  {
    name := stem + ext;
    var suffix := 2;
    ghost var refused: set<string> := {};
    while name in seen
      invariant suffix >= 2 && name == Candidate(stem, ext, suffix - 1)
      invariant forall j :: 1 <= j < suffix - 1 ==> Candidate(stem, ext, j) in refused
      invariant forall r :: r in refused ==> exists j :: 1 <= j < suffix - 1 && r == Candidate(stem, ext, j)
      invariant refused <= seen && |refused| == suffix - 2
      decreases |seen| - |refused|
    {
      forall j | 1 <= j < suffix - 1 ensures Candidate(stem, ext, j) != name {
        CandidatesDiffer(stem, ext, j, suffix - 1);
      }
      SubsetSize(refused + {name}, seen);
      refused := refused + {name};
      name := stem + "_" + Numeral(suffix) + ext;
      suffix := suffix + 1;
    }
  }

  /** Picking one more free name keeps the order. */
  lemma OneMoreName(paths: seq<string>, names: seq<string>, path: string, name: string)
    requires NamedInOrder(paths, names) && Distinct(names)
    requires var (stem, ext) := SplitName(Basename(path)); FirstFree(stem, ext, Taken(names), name)
    ensures NamedInOrder(paths + [path], names + [name]) && Distinct(names + [name])
    ensures Taken(names + [name]) == Taken(names) + {name}
  {
    hide SplitName, Basename;
    var after := names + [name];
    assert after[..|names|] == names;
    forall k | 0 <= k < |names| ensures after[..k] == names[..k] {}
    assert name !in Taken(names);
  }

  lemma NoNames()
    ensures NamedInOrder([], []) && Distinct<string>([])
  {
  }

  method BuildZip(paths: seq<string>, onDisk: set<string>) returns (names: seq<string>)
    ensures NamedInOrder(Present(paths, onDisk), names)
    ensures Distinct(names)
    ensures |names| == |Present(paths, onDisk)|
  {
    hide SplitName, Basename, FirstFree;
    var seenNames: set<string> := {};
    names := [];
    assert NamedInOrder([], []) && Distinct<string>([]) by {
      NoNames();
    }
    for i := 0 to |paths|
      invariant NamedInOrder(Present(paths[..i], onDisk), names)
      invariant Distinct(names)
      invariant seenNames == Taken(names)
    {
      assert paths[..i + 1][..i] == paths[..i];
      if paths[i] in onDisk {
        var split := SplitName(Basename(paths[i]));
        var name := PickName(split.0, split.1, seenNames);
        OneMoreName(Present(paths[..i], onDisk), names, paths[i], name);
        names := names + [name];
        seenNames := seenNames + {name};
      }
    }
    assert paths[..|paths|] == paths;
  }

  // ---- final status --------------------------------------------------------------------------

  datatype Status = Done | Stopped | Failed

  /** The end of a registration run. `packs` says whether the archive could be written,
      `stopSeen` is the stop flag as read after packing, `stopLast` as read for the status; the
      flag is sticky. */
  method FinishTask(
      files: seq<string>, count: nat, onDisk: set<string>, packs: bool, stopped: bool, stopSeen: bool, stopLast: bool)
    returns (status: Status, names: seq<string>)
    requires count >= 1
    requires stopSeen ==> stopLast
    ensures Distinct(names)
    ensures status == Stopped <==> stopped || stopLast
    ensures status == Done <==> !stopped && !stopLast && |names| == count
    ensures |names| == count <==> packs && |files| >= count && forall i :: 0 <= i < count ==> files[i] in onDisk
  {
    var toZip := if |files| > count then files[..count] else files;
    PresentSize(toZip, onDisk);
    names := [];
    var artifactError := false;
    if |toZip| > 0 {
      if packs {
        names := BuildZip(toZip, onDisk);
      }
      if |names| == 0 {
        artifactError := true;
      } else if |names| < count && !stopped && !stopSeen {
        artifactError := true;
      }
    } else if !stopped && !stopSeen {
      artifactError := true;
    }
    if stopLast || stopped {
      status := Stopped;
    } else if artifactError {
      status := Failed;
    } else {
      status := Done;
    }
  }

  /** Bundle runs end well exactly when they should: over every interleaving, a run whose
      loop was left without a stop request has collected exactly `count` distinct paths, so
      by FinishTask its status is Done iff the archive is written and none of those files is gone. */
  lemma UnstoppedBundleIsComplete(c: DispatchSpec.Config, es: seq<DispatchSpec.Event>, s: DispatchSpec.State)
    requires DispatchTheorems.Reaches(c, es, s) && !c.longRun
    requires s.control.LoopLeft? && !s.stopRequested && !s.stopped
    ensures |s.files| == c.count && Distinct(s.files)
  {
    DispatchTheorems.LoopEndsComplete(c, es, s);
    DispatchTheorems.ReachedInv(c, es, s);
  }
}
