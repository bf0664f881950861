/** Waiting for a new mail across connection losses: what the loop of core/gmail_mailbox.py
    computes, against the first qualifying message of everything that was heard. */
module MailWait {
  import opened Basics
  import opened Text

  datatype Message = Message(id: string, from: string, recipients: seq<string>, subject: string, text: string,
    received: string)

  /** One attempt to list the messages. */
  datatype Outcome = Got(messages: seq<Message>) | ReadFailed(code: string) | Raised(error: string)

  /** The outside of one wait: the answer and duration of every poll, when a task control asks
      to stop, and how much longer than asked a sleep takes. */
  datatype World = World(poll: nat -> Outcome, cost: nat -> real, interrupted: real -> bool, overrun: real -> real)

  /** What is asked for; parsing and extraction are left to the environment. */
  datatype Query = Query(
    email: string, action: bool, keyword: string, excluded: set<string>, after: Option<real>,
    addresses: string -> seq<string>, timestamp: string -> Option<real>,
    link: Message -> string, code: string -> string)

  // ---- one message --------------------------------------------------------------------------------

  predicate EndsWith(s: string, suffix: string) {
    |suffix| <= |s| && s[|s| - |suffix|..] == suffix
  }

  predicate TrustedAddress(address: string) {
    '@' in address &&
    var domain := TrimRight(Lower(AfterLast(address, '@')), IsDot);
    domain == "openai.com" || domain == "chatgpt.com" || EndsWith(domain, ".openai.com")
      || EndsWith(domain, ".chatgpt.com")
  }

  predicate TrustedSender(q: Query, m: Message) {
    q.addresses(m.from) != [] && forall i :: 0 <= i < |q.addresses(m.from)| ==> TrustedAddress(q.addresses(m.from)[i])
  }

  /** `_mail_time_is_fresh`: thirty seconds of tolerance, and undated mail is old. */
  predicate Fresh(q: Query, received: string) {
    q.after.None? || q.after.value == 0.0 ||
    (received != "" && q.timestamp(Strip(received)).Some? && q.timestamp(Strip(received)).value >= q.after.value - 30.0)
  }

  function Extracted(q: Query, m: Message): string {
    if q.action then q.link(m)
    else if q.keyword != "" && !Contains(Lower(m.subject + " " + m.text + " " + m.from), Lower(q.keyword)) then ""
    else q.code(m.subject + " " + m.text)
  }

  /** What a message that has not been seen before yields. */
  function Yield(q: Query, m: Message): Option<string> {
    if !TrustedSender(q, m) || !Fresh(q, m.received) then None
    else
      var value := Extracted(q, m);
      if value != "" && (q.action || value !in q.excluded) then Some(value) else None
  }

  predicate Addressed(email: string, m: Message) {
    exists i :: 0 <= i < |m.recipients| && Lower(Strip(m.recipients[i])) == email
  }

  function ForMe(email: string, messages: seq<Message>): seq<Message> {
    if messages == [] then []
    else (if Addressed(email, messages[0]) then [messages[0]] else []) + ForMe(email, messages[1..])
  }

  // ---- one poll ---------------------------------------------------------------------------------------

  /** Go through the messages, remembering every id that was looked at, up to the first find. */
  function Scan(q: Query, messages: seq<Message>, seen: set<string>): (set<string>, Option<string>) {
    if messages == [] then (seen, None)
    else
      var m := messages[0];
      if m.id == "" || m.id in seen then Scan(q, messages[1..], seen)
      else if Yield(q, m).Some? then (seen + {m.id}, Yield(q, m))
      else Scan(q, messages[1..], seen + {m.id})
  }

  /** The ids that the scan looks at, in order. */
  function Looked(q: Query, messages: seq<Message>, seen: set<string>): seq<string> {
    if messages == [] then []
    else
      var m := messages[0];
      if m.id == "" || m.id in seen then Looked(q, messages[1..], seen)
      else if Yield(q, m).Some? then [m.id]
      else [m.id] + Looked(q, messages[1..], seen + {m.id})
  }

  // ---- the wait ---------------------------------------------------------------------------------------------

  predicate Transient(code: string) { code == "network_error" || code == "timeout" }

  function Classify(code: string): string {
    if code == "auth_required" || code == "authentication_failed" || code == "timeout" || code == "network_error"
      || code == "tls_error"
    then code else "mail_service_unavailable"
  }

  datatype Result = Found(value: string) | ReadError(code: string) | Broken(error: string) | Interrupted
    | TimedOut(failure: Option<string>)

  /** How the wait ended, when, how many polls were answered before that, and the ids of the
      messages it looked at. */
  datatype Report = Report(result: Result, ended: real, polls: nat, looked: seq<string>)

  /** The same with ids looked at before. */
  function Extend(looked: seq<string>, r: Report): Report { r.(looked := looked + r.looked) }

  function Positive(x: real): (r: real)
    ensures r >= 0.0
  {
    if x < 0.0 then 0.0 else x
  }

  function MinReal(a: real, b: real): real { if a < b then a else b }

  /** Sleep in steps of a quarter second, with a checkpoint before each. */
  function Sleep(w: World, now: real, remaining: real): (r: (bool, real))
    ensures r.1 >= now && (r.0 ==> r.1 >= now + remaining)
    decreases if remaining <= 0.0 then 0 else (remaining * 4.0).Floor + 1
  {
    if remaining <= 0.0 then (true, now)
    else if w.interrupted(now) then (false, now)
    else
      var chunk := MinReal(0.25, remaining);
      Sleep(w, now + chunk + Positive(w.overrun(now)), remaining - chunk)
  }

  function End(w: World, now: real, polls: nat, last: Option<string>): Report {
    Report(if w.interrupted(now) then Interrupted else TimedOut(last), now, polls, [])
  }

  /** Seconds left, as a measure that falls by three with every further poll. */
  function Left(now: real, deadline: real): nat {
    if now >= deadline then 0 else ((deadline - now) / 3.0).Floor + 1
  }

  function Run(w: World, q: Query, n: nat, now: real, deadline: real, seen: set<string>, last: Option<string>): Report
    decreases Left(now, deadline)
  {
    if now >= deadline then End(w, now, n, last)
    else if w.interrupted(now) then Report(Interrupted, now, n, [])
    else
      var t := now + Positive(w.cost(n));
      match w.poll(n)
      case Raised(error) => Report(Broken(error), t, n, [])
      case ReadFailed(code) =>
        if !Transient(Classify(code)) then Report(ReadError(Classify(code)), t, n, [])
        else if w.interrupted(t) then Report(Interrupted, t, n, [])
        else Rest(w, q, n + 1, now, t, deadline, seen, Some(Classify(code)))
      case Got(messages) =>
        if w.interrupted(t) then Report(Interrupted, t, n, [])
        else
          var mine := ForMe(q.email, messages);
          var (after, value) := Scan(q, mine, seen);
          if value.Some? then Report(Found(value.value), t, n + 1, Looked(q, mine, seen))
          else Extend(Looked(q, mine, seen), Rest(w, q, n + 1, now, t, deadline, after, None))
  }

  /** The pause between two polls. */
  function Rest(
      w: World, q: Query, n: nat, began: real, t: real, deadline: real, seen: set<string>,
      last: Option<string>): Report
    requires began <= t && began < deadline
    decreases Left(began, deadline), 0
  {
    if deadline - t <= 0.0 then End(w, t, n, last)
    else
      var (awake, later) := Sleep(w, t, MinReal(3.0, deadline - t));
      if !awake then Report(Interrupted, later, n, [])
      else Run(w, q, n, later, deadline, seen, last)
  }

  // ---- the simple specification ------------------------------------------------------------------------------

  /** Everything that answered polls brought, in order. */
  function Heard(w: World, email: string, n: nat, m: nat): seq<Message>
    requires n <= m
    decreases m - n
  {
    if n == m then [] else (if w.poll(n).Got? then ForMe(email, w.poll(n).messages) else []) + Heard(w, email, n + 1, m)
  }

  /** Without empty ids, ids seen before, and repeated ids. */
  function Novel(messages: seq<Message>, seen: set<string>): seq<Message> {
    if messages == [] then []
    else if messages[0].id == "" || messages[0].id in seen then Novel(messages[1..], seen)
    else [messages[0]] + Novel(messages[1..], seen + {messages[0].id})
  }

  function FirstYield(q: Query, messages: seq<Message>): Option<string> {
    if messages == [] then None
    else if Yield(q, messages[0]).Some? then Yield(q, messages[0])
    else FirstYield(q, messages[1..])
  }

  function Answer(r: Result): Option<string> {
    if r.Found? then Some(r.value) else None
  }

  // ---- refinement ------------------------------------------------------------------------------------------------

  lemma {:induction false} ScanIsFirstYield(q: Query, messages: seq<Message>, seen: set<string>)
    ensures Scan(q, messages, seen).1 == FirstYield(q, Novel(messages, seen))
  {
    hide Yield;
    if messages != [] {
      var m := messages[0];
      if m.id == "" || m.id in seen {
        ScanIsFirstYield(q, messages[1..], seen);
      } else {
        ScanIsFirstYield(q, messages[1..], seen + {m.id});
        assert ([m] + Novel(messages[1..], seen + {m.id}))[1..] == Novel(messages[1..], seen + {m.id});
      }
    }
  }

  /** Scanning in two portions is scanning at once. */
  lemma {:induction false} ScanInPortions(q: Query, a: seq<Message>, b: seq<Message>, seen: set<string>)
    ensures Scan(q, a + b, seen).1 ==
      if Scan(q, a, seen).1.Some? then Scan(q, a, seen).1 else Scan(q, b, Scan(q, a, seen).0).1
  {
    hide Yield;
    if a == [] {
      assert a + b == b;
    } else {
      var m := a[0];
      assert (a + b)[1..] == a[1..] + b;
      if m.id == "" || m.id in seen {
        ScanInPortions(q, a[1..], b, seen);
      } else if Yield(q, m).None? {
        ScanInPortions(q, a[1..], b, seen + {m.id});
      }
    }
  }

  lemma {:induction false} LookedInPortions(q: Query, a: seq<Message>, b: seq<Message>, seen: set<string>)
    ensures Looked(q, a + b, seen) ==
      Looked(q, a, seen) + if Scan(q, a, seen).1.Some? then [] else Looked(q, b, Scan(q, a, seen).0)
  {
    hide Yield;
    if a == [] {
      assert a + b == b;
    } else {
      var m := a[0];
      assert (a + b)[1..] == a[1..] + b;
      if m.id == "" || m.id in seen {
        LookedInPortions(q, a[1..], b, seen);
      } else if Yield(q, m).None? {
        LookedInPortions(q, a[1..], b, seen + {m.id});
      }
    }
  }

  lemma NothingLooked(q: Query, seen: set<string>)
    ensures Looked(q, [], seen) == []
  {
  }

  lemma {:induction false} RunScansAll(
      w: World, q: Query, n: nat, now: real, deadline: real, seen: set<string>, last: Option<string>)
    ensures var r := Run(w, q, n, now, deadline, seen, last);
      n <= r.polls && Answer(r.result) == Scan(q, Heard(w, q.email, n, r.polls), seen).1
      && r.looked == Looked(q, Heard(w, q.email, n, r.polls), seen)
    decreases Left(now, deadline), 1
  {
    hide Yield, ForMe, Sleep, Classify, Transient, Looked;
    NothingLooked(q, seen);
    if now < deadline && !w.interrupted(now) {
      var t := now + Positive(w.cost(n));
      match w.poll(n)
      case Raised(_) =>
      case ReadFailed(code) =>
        if Transient(Classify(code)) && !w.interrupted(t) {
          RestScansAll(w, q, n + 1, now, t, deadline, seen, Some(Classify(code)));
          Skip(w, q, n, Rest(w, q, n + 1, now, t, deadline, seen, Some(Classify(code))).polls);
        }
      case Got(messages) =>
        if !w.interrupted(t) {
          var mine := ForMe(q.email, messages);
          var (looked, value) := Scan(q, mine, seen);
          if value.Some? {
            One(w, q, n);
          } else {
            RestScansAll(w, q, n + 1, now, t, deadline, looked, None);
            var later := Heard(w, q.email, n + 1, Rest(w, q, n + 1, now, t, deadline, looked, None).polls);
            ScanInPortions(q, mine, later, seen);
            LookedInPortions(q, mine, later, seen);
          }
        }
    }
  }

  /** A poll that failed adds nothing to what was heard, and takes nothing away. */
  lemma Skip(w: World, q: Query, n: nat, m: nat)
    requires n < m && !w.poll(n).Got?
    ensures Heard(w, q.email, n, m) == Heard(w, q.email, n + 1, m)
  {
  }

  lemma One(w: World, q: Query, n: nat)
    requires w.poll(n).Got?
    ensures Heard(w, q.email, n, n + 1) == ForMe(q.email, w.poll(n).messages)
  {
    assert Heard(w, q.email, n + 1, n + 1) == [];
  }

  lemma {:induction false} RestScansAll(
      w: World, q: Query, n: nat, began: real, t: real, deadline: real, seen: set<string>, last: Option<string>)
    requires began <= t && began < deadline
    ensures var r := Rest(w, q, n, began, t, deadline, seen, last);
      n <= r.polls && Answer(r.result) == Scan(q, Heard(w, q.email, n, r.polls), seen).1
      && r.looked == Looked(q, Heard(w, q.email, n, r.polls), seen)
    decreases Left(began, deadline), 0
  {
    hide Yield, ForMe, Sleep;
    if deadline - t > 0.0 {
      var (awake, later) := Sleep(w, t, MinReal(3.0, deadline - t));
      if awake {
        RunScansAll(w, q, n, later, deadline, seen, last);
      }
    }
  }

  /** The wait answers with the first message that qualifies among all that were heard, after
      dropping baseline ids and repeated ids; and with nothing exactly when there is none. */
  lemma WaitIsFirstQualifying(w: World, q: Query, now: real, deadline: real, baseline: set<string>)
    ensures var r := Run(w, q, 0, now, deadline, baseline, None);
      Answer(r.result) == FirstYield(q, Novel(Heard(w, q.email, 0, r.polls), baseline))
  {
    var r := Run(w, q, 0, now, deadline, baseline, None);
    RunScansAll(w, q, 0, now, deadline, baseline, None);
    ScanIsFirstYield(q, Heard(w, q.email, 0, r.polls), baseline);
  }

  /** The scan looks at the novel messages one by one, up to the first that qualifies. */
  lemma {:induction false} LookedAreNovel(q: Query, messages: seq<Message>, seen: set<string>)
    ensures |Looked(q, messages, seen)| <= |Novel(messages, seen)|
    ensures forall i :: 0 <= i < |Looked(q, messages, seen)| ==>
      Looked(q, messages, seen)[i] == Novel(messages, seen)[i].id
    ensures Scan(q, messages, seen).1.None? ==> |Looked(q, messages, seen)| == |Novel(messages, seen)|
  {
    hide Yield;
    if messages != [] {
      var m := messages[0];
      if m.id == "" || m.id in seen {
        LookedAreNovel(q, messages[1..], seen);
      } else {
        LookedAreNovel(q, messages[1..], seen + {m.id});
      }
    }
  }

  /** Over a whole wait - all its polls, repeated listings, failures in between - no id is looked
      at twice, and none of the baseline at all. */
  lemma NoIdIsLookedAtTwice(w: World, q: Query, now: real, deadline: real, baseline: set<string>)
    ensures var looked := Run(w, q, 0, now, deadline, baseline, None).looked;
      && (forall i :: 0 <= i < |looked| ==> looked[i] != "" && looked[i] !in baseline)
      && (forall i, j :: 0 <= i < j < |looked| ==> looked[i] != looked[j])
  {
    hide Run, Yield;
    RunScansAll(w, q, 0, now, deadline, baseline, None);
    var heard := Heard(w, q.email, 0, Run(w, q, 0, now, deadline, baseline, None).polls);
    LookedAreNovel(q, heard, baseline);
    NovelIdsAreDistinct(heard, baseline);
  }

  lemma {:induction false} NovelIdsAreDistinct(messages: seq<Message>, seen: set<string>)
    ensures forall i :: 0 <= i < |Novel(messages, seen)| ==>
      Novel(messages, seen)[i].id != "" && Novel(messages, seen)[i].id !in seen
    ensures forall i, j :: 0 <= i < j < |Novel(messages, seen)| ==>
      Novel(messages, seen)[i].id != Novel(messages, seen)[j].id
  {
    if messages != [] {
      if messages[0].id == "" || messages[0].id in seen {
        NovelIdsAreDistinct(messages[1..], seen);
      } else {
        NovelIdsAreDistinct(messages[1..], seen + {messages[0].id});
      }
    }
  }

  /** Every message whose id is new is looked at, at its first appearance. */
  lemma {:induction false} FirstAppearanceIsNovel(messages: seq<Message>, seen: set<string>, i: nat)
    requires i < |messages| && messages[i].id != "" && messages[i].id !in seen
    requires forall j :: 0 <= j < i ==> messages[j].id != messages[i].id
    ensures messages[i] in Novel(messages, seen)
  {
    if i > 0 {
      var rest := messages[1..];
      assert rest[i - 1] == messages[i];
      assert forall j :: 0 <= j < i - 1 ==> rest[j] == messages[j + 1];
      if messages[0].id == "" || messages[0].id in seen {
        FirstAppearanceIsNovel(rest, seen, i - 1);
      } else {
        assert messages[0].id != messages[i].id;
        FirstAppearanceIsNovel(rest, seen + {messages[0].id}, i - 1);
      }
    }
  }

  lemma {:induction false} NoYieldMeansNone(q: Query, messages: seq<Message>, m: Message)
    requires FirstYield(q, messages) == None && m in messages
    ensures Yield(q, m) == None
  {
    hide Yield;
    if m != messages[0] {
      assert m in messages[1..];
      NoYieldMeansNone(q, messages[1..], m);
    }
  }

  /** Failed polls lose nothing: when the wait ends without an answer, no message that any poll
      delivered would have qualified at its first appearance. */
  lemma NothingIsMissed(w: World, q: Query, now: real, deadline: real, baseline: set<string>, i: nat)
    requires var heard := Heard(w, q.email, 0, Run(w, q, 0, now, deadline, baseline, None).polls);
      i < |heard| && heard[i].id != "" && heard[i].id !in baseline
      && forall j :: 0 <= j < i ==> heard[j].id != heard[i].id
    requires !Run(w, q, 0, now, deadline, baseline, None).result.Found?
    ensures Yield(q, Heard(w, q.email, 0, Run(w, q, 0, now, deadline, baseline, None).polls)[i]) == None
  {
    var heard := Heard(w, q.email, 0, Run(w, q, 0, now, deadline, baseline, None).polls);
    WaitIsFirstQualifying(w, q, now, deadline, baseline);
    FirstAppearanceIsNovel(heard, baseline, i);
    NoYieldMeansNone(q, Novel(heard, baseline), heard[i]);
  }

  // ---- time --------------------------------------------------------------------------------------------------------

  function FailureOf(o: Outcome): Option<string> {
    if o.ReadFailed? then Some(Classify(o.code)) else None
  }

  /** A time-out is never early, comes after a bounded number of polls, and names the failure
      of the last poll if that failed. */
  lemma {:induction false} TimeOutIsHonest(
      w: World, q: Query, n: nat, now: real, deadline: real, seen: set<string>, last: Option<string>)
    ensures var r := Run(w, q, n, now, deadline, seen, last);
      && r.ended >= now
      && n <= r.polls <= n + Left(now, deadline)
      && (r.result.TimedOut? ==> r.ended >= deadline)
      && (r.result.TimedOut? ==> r.result.failure == if r.polls == n then last else FailureOf(w.poll(r.polls - 1)))
    decreases Left(now, deadline), 1
  {
    hide Scan, ForMe, Sleep, Classify, Transient, Looked;
    if now < deadline && !w.interrupted(now) {
      var t := now + Positive(w.cost(n));
      match w.poll(n)
      case Raised(_) =>
      case ReadFailed(code) =>
        if Transient(Classify(code)) && !w.interrupted(t) {
          RestIsHonest(w, q, n + 1, now, t, deadline, seen, Some(Classify(code)));
        }
      case Got(messages) =>
        if !w.interrupted(t) {
          var (looked, value) := Scan(q, ForMe(q.email, messages), seen);
          if value.None? {
            RestIsHonest(w, q, n + 1, now, t, deadline, looked, None);
          }
        }
    }
  }

  lemma {:induction false} RestIsHonest(
      w: World, q: Query, n: nat, began: real, t: real, deadline: real, seen: set<string>, last: Option<string>)
    requires began <= t && began < deadline
    ensures var r := Rest(w, q, n, began, t, deadline, seen, last);
      && r.ended >= t
      && n <= r.polls <= n + Left(began, deadline) - 1
      && (r.result.TimedOut? ==> r.ended >= deadline)
      && (r.result.TimedOut? ==> r.result.failure == if r.polls == n then last else FailureOf(w.poll(r.polls - 1)))
    decreases Left(began, deadline), 0
  {
    hide Sleep;
    if deadline - t > 0.0 {
      var (awake, later) := Sleep(w, t, MinReal(3.0, deadline - t));
      if awake {
        TimeOutIsHonest(w, q, n, later, deadline, seen, last);
      }
    }
  }
}
