/** The registration task runner as a transition system (api/tasks.py, `_run_register`).

    One dispatcher thread submits attempts and harvests their results; every attempt is
    a worker that reserves a domain slot, tries to add one file, settles its slot and ends.
    Each event below is one critical section of the program (one lock, or one private step
    of the dispatcher), so a run is an arbitrary interleaving of them.  In particular the
    dispatcher's three looks at the world - stop flag, progress counter, active set - are
    three separate events. */
module DispatchSpec {
  import opened Basics
  import opened Text

  /** What the runner takes from the request: the target count, the worker cap (already the
      minimum of requested workers, count and platform cap), the normalised business domains,
      the per-domain cap (0 means unlimited), and whether successes are counted by uploads
      (long run) or by collected files (bundle). */
  datatype Config = Config(count: nat, maxWorkers: nat, domains: seq<string>, cap: nat, longRun: bool)

  ghost predicate Accepted(c: Config) {
    && c.count >= 1
    && c.maxWorkers >= 1
    && Distinct(c.domains)
    && "" !in c.domains
  }

  datatype Stage = Queued | Unreserved | Reserved | FileTried | Settled | Ended

  /** One submitted attempt; `filed` records that it advanced the progress counter. */
  datatype Attempt = Attempt(stage: Stage, domain: string, filed: bool)

  datatype Control =
    | AtStopCheck
    | AtCountRead
    | AtActiveRead(remaining: int)
    | AtWait
    | AtStopPoll
    | LoopLeft(broke: bool)

  datatype Ledger = Ledger(inflight: map<string, nat>, collected: map<string, nat>, turn: nat)

  datatype State = State(
    files: seq<string>,
    fileSet: set<string>,
    successes: nat,
    successEmails: set<string>,
    ledger: Ledger,
    attempts: seq<Attempt>,
    active: set<nat>,
    control: Control,
    stopRequested: bool,
    stopped: bool)

  function Initial(): State {
    State([], {}, 0, {}, Ledger(map[], map[], 0), [], {}, AtStopCheck, false, false)
  }

  /** The counter the dispatcher compares with the target. */
  function Progress(c: Config, s: State): nat {
    if c.longRun then s.successes else |s.files|
  }

  function Tally(counts: map<string, nat>, domain: string): nat {
    if domain in counts then counts[domain] else 0
  }

  // ---- the domain ledger ------------------------------------------------------------

  predicate Open(l: Ledger, domain: string, cap: nat) {
    Tally(l.collected, domain) + Tally(l.inflight, domain) < cap
  }

  /** The first domain of `domains[from..]` with room. */
  function FirstOpen(l: Ledger, domains: seq<string>, cap: nat, from: nat): Option<string>
    requires from <= |domains|
    decreases |domains| - from
  {
    if from == |domains| then None
    else if Open(l, domains[from], cap) then Some(domains[from])
    else FirstOpen(l, domains, cap, from + 1)
  }

  /** The slot a worker is given: "" when there are no domains, None when every domain is full. */
  function ChooseDomain(c: Config, l: Ledger): Option<string> {
    if |c.domains| == 0 then Some("")
    else if c.cap > 0 then FirstOpen(l, c.domains, c.cap, 0)
    else Some(c.domains[l.turn % |c.domains|])
  }

  function TakeSlot(c: Config, l: Ledger, domain: string): Ledger {
    if domain == "" then l
    else Ledger(l.inflight[domain := Tally(l.inflight, domain) + 1], l.collected,
                if c.cap > 0 then l.turn else l.turn + 1)
  }

  function GiveBack(l: Ledger, domain: string, filed: bool): Ledger {
    if domain == "" then l
    else
      var left := if Tally(l.inflight, domain) == 0 then 0 else Tally(l.inflight, domain) - 1;
      Ledger(if left == 0 then l.inflight - {domain} else l.inflight[domain := left],
             if filed then l.collected[domain := Tally(l.collected, domain) + 1] else l.collected,
             l.turn)
  }

  // ---- events ------------------------------------------------------------------------

  datatype Event =
    | RequestStop
    | StopCheck
    | ReadCount
    | CompareActive
    | Harvest(done: set<nat>, sawStopped: bool)
    | LeaveLoop
    | PollStop
    | Start(i: nat)
    | Reserve(i: nat)
    | Collect(i: nat, path: string)
    | Bump(i: nat, text: string)
    | Settle(i: nat)
    | End(i: nat)

  predicate AtStage(s: State, i: nat, stage: Stage) {
    i < |s.attempts| && s.attempts[i].stage == stage
  }

  predicate Enabled(c: Config, s: State, e: Event) {
    match e
    case RequestStop => true
    case StopCheck => s.control == AtStopCheck
    case ReadCount => s.control == AtCountRead
    case CompareActive => s.control.AtActiveRead?
    case Harvest(done, _) =>
      s.control == AtWait && done != {} && done <= s.active && forall i :: i in done ==> AtStage(s, i, Ended)
    case LeaveLoop => s.control == AtWait && s.active == {}
    case PollStop => s.control == AtStopPoll
    case Start(i) => AtStage(s, i, Queued)
    // A full ledger makes the reservation raise: the attempt then settles unreserved.
    case Reserve(i) => AtStage(s, i, Unreserved) && ChooseDomain(c, s.ledger).Some?
    case Collect(i, _) => !c.longRun && AtStage(s, i, Reserved)
    // The long run may also count an account kept from an earlier upload, before reserving.
    case Bump(i, _) => c.longRun && (AtStage(s, i, Unreserved) || AtStage(s, i, Reserved))
    // Any failure jumps to the attempt's final block.
    case Settle(i) => AtStage(s, i, Unreserved) || AtStage(s, i, Reserved) || AtStage(s, i, FileTried)
    case End(i) => AtStage(s, i, Settled)
  }

  function SetAttempt(s: State, i: nat, a: Attempt): State
    requires i < |s.attempts|
  {
    s.(attempts := s.attempts[i := a])
  }

  /** Stop wins; otherwise go and read the counter. */
  function OnStopCheck(s: State): State {
    s.(control := if s.stopped || s.stopRequested then AtWait else AtCountRead)
  }

  function OnReadCount(c: Config, s: State): State {
    var remaining := c.count - Progress(c, s);
    s.(control := if remaining <= 0 then AtWait else AtActiveRead(remaining))
  }

  /** Submit one more attempt unless `min(maxWorkers, remaining)` are already listed. */
  function OnCompareActive(c: Config, s: State): State
    requires s.control.AtActiveRead?
  {
    var r := s.control.remaining;
    var allowed := if c.maxWorkers < r then c.maxWorkers else r;
    if |s.active| >= allowed then s.(control := AtWait)
    else s.(attempts := s.attempts + [Attempt(Queued, "", false)],
            active := s.active + {|s.attempts|},
            control := AtStopCheck)
  }

  function OnHarvest(s: State, done: set<nat>, sawStopped: bool): State {
    s.(active := s.active - done, stopped := s.stopped || sawStopped, control := AtStopPoll)
  }

  /** Cancelling a future succeeds exactly while it is still queued. */
  function Cancelled(attempts: seq<Attempt>, active: set<nat>): (r: seq<Attempt>)
    ensures |r| == |attempts|
    ensures forall i :: 0 <= i < |r| ==>
      r[i] == if i in active && attempts[i].stage == Queued then attempts[i].(stage := Ended) else attempts[i]
  {
    seq(|attempts|, i requires 0 <= i < |attempts| =>
      if i in active && attempts[i].stage == Queued then attempts[i].(stage := Ended) else attempts[i])
  }

  function OnPollStop(s: State): State {
    if s.stopped || s.stopRequested then
      s.(stopped := true, attempts := Cancelled(s.attempts, s.active), control := LoopLeft(true))
    else s.(control := AtStopCheck)
  }

  function OnReserve(c: Config, s: State, i: nat): State
    requires i < |s.attempts| && ChooseDomain(c, s.ledger).Some?
  {
    var domain := ChooseDomain(c, s.ledger).value;
    SetAttempt(s.(ledger := TakeSlot(c, s.ledger, domain)), i,
               s.attempts[i].(stage := Reserved, domain := domain))
  }

  /** The worker's own test, made under the file lock. */
  predicate Accepts(c: Config, s: State, path: string) {
    path != "" && path !in s.fileSet && |s.files| < c.count
  }

  function OnCollect(c: Config, s: State, i: nat, path: string): State
    requires i < |s.attempts|
  {
    var added := Accepts(c, s, path);
    var s1 := if added then s.(files := s.files + [path], fileSet := s.fileSet + {path}) else s;
    SetAttempt(s1, i, s.attempts[i].(stage := FileTried, filed := added))
  }

  /** Addresses are compared without surrounding blanks and in lower case. */
  function NameOf(email: string): string { Lower(Strip(email)) }

  function OnBump(s: State, i: nat, text: string): State
    requires i < |s.attempts|
  {
    var email := NameOf(text);
    var isNew := email == "" || email !in s.successEmails;
    var s1 := if isNew
              then s.(successes := s.successes + 1,
                      successEmails := if email == "" then s.successEmails else s.successEmails + {email})
              else s;
    SetAttempt(s1, i, s.attempts[i].(stage := FileTried, filed := isNew))
  }

  function OnSettle(s: State, i: nat): State
    requires i < |s.attempts|
  {
    var a := s.attempts[i];
    SetAttempt(s.(ledger := GiveBack(s.ledger, a.domain, a.filed)), i, a.(stage := Settled))
  }

  function Apply(c: Config, s: State, e: Event): State
    requires Enabled(c, s, e)
  {
    match e
    case RequestStop => s.(stopRequested := true)
    case StopCheck => OnStopCheck(s)
    case ReadCount => OnReadCount(c, s)
    case CompareActive => OnCompareActive(c, s)
    case Harvest(done, sawStopped) => OnHarvest(s, done, sawStopped)
    case LeaveLoop => s.(control := LoopLeft(false))
    case PollStop => OnPollStop(s)
    case Start(i) => SetAttempt(s, i, s.attempts[i].(stage := Unreserved))
    case Reserve(i) => OnReserve(c, s, i)
    case Collect(i, path) => OnCollect(c, s, i, path)
    case Bump(i, text) => OnBump(s, i, text)
    case Settle(i) => OnSettle(s, i)
    case End(i) => SetAttempt(s, i, s.attempts[i].(stage := Ended))
  }

  ghost predicate Legal(c: Config, s: State, es: seq<Event>)
    decreases |es|
  {
    |es| == 0 || (Enabled(c, s, es[0]) && Legal(c, Apply(c, s, es[0]), es[1..]))
  }

  ghost function After(c: Config, s: State, es: seq<Event>): State
    requires Legal(c, s, es)
    decreases |es|
  {
    if |es| == 0 then s else After(c, Apply(c, s, es[0]), es[1..])
  }
}
