/** Which mails qualify, who is trusted, which failures end a wait, and how often it looks
    (core/gmail_mailbox.py), in terms of the mails, the codes and the clock. */
module MailRules {
  import opened Basics
  import opened Text
  import opened MailWait

  // ---- senders -------------------------------------------------------------------------------------

  /** One of the two trusted domains, or a domain below one of them. */
  predicate IsOurs(domain: string) {
    || domain == "openai.com" || domain == "chatgpt.com"
    || (|domain| >= 11 && domain[|domain| - 11..] == ".openai.com")
    || (|domain| >= 12 && domain[|domain| - 12..] == ".chatgpt.com")
  }

  /** A domain name as senders are compared: in lower case, without dots at the end. */
  function Bare(domain: string): string { TrimRight(Lower(domain), IsDot) }

  /** An address is trusted exactly when what follows its last "@" is a trusted domain or one below
      it; a text without "@" never is. */
  lemma TrustedExactly(local: string, domain: string)
    requires '@' !in domain
    ensures TrustedAddress(local + "@" + domain) <==> IsOurs(Bare(domain))
    ensures !TrustedAddress(domain)
  {
    AfterLastOfSum(local, '@', domain);
    var address := local + "@" + domain;
    assert address[|local|] == '@';
    assert local + ['@'] + domain == address;
    assert AfterLast(address, '@') == domain;
    OursByEnding(Bare(domain));
    hide TrimRight, AfterLast, Lower, IsOurs, EndsWith;
  }

  lemma OursByEnding(d: string)
    ensures IsOurs(d) <==>
      d == "openai.com" || d == "chatgpt.com" || EndsWith(d, ".openai.com") || EndsWith(d, ".chatgpt.com")
  {
    assert |".openai.com"| == 11 && |".chatgpt.com"| == 12;
  }

  // ---- qualifying mails ---------------------------------------------------------------------------------

  /** Every address of the sender line is trusted, and there is one. */
  predicate SentByUs(q: Query, m: Message) {
    q.addresses(m.from) != [] && forall a :: a in q.addresses(m.from) ==> TrustedAddress(a)
  }

  /** Not older than half a minute before the wait's starting time, if that is known; a mail whose
      date is missing or unreadable is too old. */
  predicate RecentEnough(q: Query, m: Message) {
    q.after.Some? && q.after.value != 0.0 ==>
      m.received != "" &&
      var at := q.timestamp(Strip(m.received));
      at.Some? && q.after.value <= at.value + 30.0
  }

  /** The wait's keyword, if there is one, is somewhere in subject, text or sender. */
  predicate HasKeyword(q: Query, m: Message) {
    q.keyword != "" ==> Contains(Lower(m.subject + " " + m.text + " " + m.from), Lower(q.keyword))
  }

  /** Exactly when a mail yields `value`: it is from a trusted sender and recent enough, and that is
      the link in it, or the code in a mail with the keyword that is not excluded. */
  lemma YieldsExactly(q: Query, m: Message, value: string)
    ensures Yield(q, m) == Some(value) <==>
      && SentByUs(q, m) && RecentEnough(q, m) && value != ""
      && if q.action then value == q.link(m)
         else HasKeyword(q, m) && value == q.code(m.subject + " " + m.text) && value !in q.excluded
  {
    assert SentByUs(q, m) <==> TrustedSender(q, m) by {
      SentByUsMeans(q, m);
    }
    hide TrustedSender, SentByUs, Contains, Lower, Strip;
  }

  lemma SentByUsMeans(q: Query, m: Message)
    ensures SentByUs(q, m) <==> TrustedSender(q, m)
  {
    hide TrustedAddress;
    var from := q.addresses(m.from);
    if TrustedSender(q, m) {
      forall a | a in from ensures TrustedAddress(a) {
        var i :| 0 <= i < |from| && from[i] == a;
      }
    }
    if SentByUs(q, m) {
      forall i | 0 <= i < |from| ensures TrustedAddress(from[i]) {
        assert from[i] in from;
      }
    }
  }

  // ---- what was heard -------------------------------------------------------------------------------------

  /** The mail names this address among its recipients, but for case and surrounding blanks. */
  predicate IsFor(email: string, m: Message) {
    exists r :: r in m.recipients && Lower(Strip(r)) == email
  }

  lemma AddressedMeans(email: string, m: Message)
    ensures Addressed(email, m) <==> IsFor(email, m)
  {
    hide Lower, Strip;
    if r :| r in m.recipients && Lower(Strip(r)) == email {
      var i :| 0 <= i < |m.recipients| && m.recipients[i] == r;
    }
    if i :| 0 <= i < |m.recipients| && Lower(Strip(m.recipients[i])) == email {
      assert m.recipients[i] in m.recipients;
    }
  }

  lemma {:induction false} ForMeExactly(email: string, messages: seq<Message>, m: Message)
    ensures m in ForMe(email, messages) <==> m in messages && IsFor(email, m)
  {
    hide Addressed, IsFor;
    if messages != [] {
      AddressedMeans(email, messages[0]);
      ForMeExactly(email, messages[1..], m);
    }
  }

  /** The poll brought this mail. */
  predicate Brought(w: World, i: nat, m: Message) { w.poll(i).Got? && m in w.poll(i).messages }

  /** What counts as heard by polls `n` to `k`: exactly the mails for this address that one of them
      brought. */
  lemma {:induction false} HeardExactly(w: World, email: string, n: nat, k: nat, m: Message)
    requires n <= k
    ensures m in Heard(w, email, n, k) <==> IsFor(email, m) && exists i: nat :: n <= i < k && Brought(w, i, m)
    decreases k - n
  {
    hide IsFor, ForMe;
    if n < k {
      HeardExactly(w, email, n + 1, k, m);
      if w.poll(n).Got? {
        ForMeExactly(email, w.poll(n).messages, m);
      }
      if Brought(w, n, m) && IsFor(email, m) {
        assert m in ForMe(email, w.poll(n).messages);
      }
      forall i: nat | n <= i < k && Brought(w, i, m) ensures Brought(w, n, m) || n + 1 <= i < k {}
      var first := if w.poll(n).Got? then ForMe(email, w.poll(n).messages) else [];
      assert m in first <==> Brought(w, n, m) && IsFor(email, m);
      assert Heard(w, email, n, k) == first + Heard(w, email, n + 1, k);
      hide Heard, Brought;
    }
  }

  // ---- failures ------------------------------------------------------------------------------------------------

  /** The failures that the connection may get over by itself. */
  predicate MayRecover(code: string) { code in {"network_error", "timeout"} }

  /** A failed listing leads to another look exactly for these two codes; any other ends the wait,
      under its own code if it is one of the known ones. */
  lemma FailureDecides(
      w: World, q: Query, n: nat, now: real, deadline: real, seen: set<string>, last: Option<string>, code: string)
    requires now < deadline && !w.interrupted(now) && w.poll(n) == ReadFailed(code)
    ensures var t, r := now + Positive(w.cost(n)), Run(w, q, n, now, deadline, seen, last);
      && (MayRecover(code) && !w.interrupted(t) ==> r == Rest(w, q, n + 1, now, t, deadline, seen, Some(code)))
      && (MayRecover(code) && w.interrupted(t) ==> r.result == Interrupted && r.polls == n)
      && (code in {"auth_required", "authentication_failed", "tls_error"} ==> r.result == ReadError(code))
      && (!MayRecover(code) && code !in {"auth_required", "authentication_failed", "tls_error"} ==>
            r.result == ReadError("mail_service_unavailable"))
  {
    hide Rest;
  }

  // ---- how often, how promptly -------------------------------------------------------------------------------------

  /** Sleeping and reading take no longer than they should, and nobody interrupts. */
  ghost predicate Ideal(w: World) {
    (forall n: nat :: w.cost(n) == 0.0) && forall t :: w.overrun(t) == 0.0 && !w.interrupted(t)
  }

  lemma {:induction false} IdealSleep(w: World, now: real, remaining: real)
    requires Ideal(w) && remaining >= 0.0
    ensures Sleep(w, now, remaining) == (true, now + remaining)
    decreases if remaining <= 0.0 then 0 else (remaining * 4.0).Floor + 1
  {
    if remaining > 0.0 {
      var chunk := MinReal(0.25, remaining);
      assert w.overrun(now) == 0.0 && !w.interrupted(now);
      IdealSleep(w, now + chunk, remaining - chunk);
    }
  }

  /** The poll brings nothing, or fails for a moment. */
  predicate BringsNothing(w: World, n: nat) {
    w.poll(n) == Got([]) || (w.poll(n).ReadFailed? && MayRecover(w.poll(n).code))
  }

  /** Whole intervals of three seconds until the deadline. */
  function Thirds(now: real, deadline: real): nat {
    if now >= deadline then 0 else ((deadline - now) / 3.0).Floor
  }

  /** The counterpart of the bound on polls: while nothing comes, the wait looks at least once in
      every three seconds until its deadline. */
  lemma {:induction false} LooksEveryThreeSeconds(
      w: World, q: Query, n: nat, now: real, deadline: real, seen: set<string>, last: Option<string>)
    requires Ideal(w) && forall k: nat :: BringsNothing(w, k)
    ensures var r := Run(w, q, n, now, deadline, seen, last);
      r.result.TimedOut? && r.polls >= n + Thirds(now, deadline) && (now < deadline ==> r.polls >= n + 1)
    decreases Left(now, deadline)
  {
    hide Sleep;
    assert !w.interrupted(now) && w.cost(n) == 0.0;
    if now < deadline {
      assert BringsNothing(w, n);
      var pause := MinReal(3.0, deadline - now);
      IdealSleep(w, now, pause);
      NothingFound(q, seen);
      assert !w.interrupted(now + pause);
      var last' := if w.poll(n).Got? then None else Some(w.poll(n).code);
      OneLook(w, q, n, now, deadline, seen, last, pause, last');
      if pause == 3.0 {
        LaterIsLess(now, deadline);
      }
      LooksEveryThreeSeconds(w, q, n + 1, now + pause, deadline, seen, last');
    }
  }

  lemma LaterIsLess(now: real, deadline: real)
    requires now + 3.0 <= deadline
    ensures Left(now + 3.0, deadline) < Left(now, deadline) && Thirds(now + 3.0, deadline) + 1 >= Thirds(now, deadline)
  {
    var x := (deadline - now) / 3.0;
    assert (deadline - (now + 3.0)) / 3.0 == x - 1.0;
    assert (x - 1.0).Floor == x.Floor - 1;
  }

  lemma NothingFound(q: Query, seen: set<string>)
    ensures Scan(q, [], seen) == (seen, None) && Looked(q, [], seen) == [] && ForMe(q.email, []) == []
  {
  }

  /** One look that brings nothing, and the pause after it. */
  lemma OneLook(
      w: World, q: Query, n: nat, now: real, deadline: real, seen: set<string>, last: Option<string>, pause: real,
      last': Option<string>)
    requires now < deadline && BringsNothing(w, n) && !w.interrupted(now) && w.cost(n) == 0.0
    requires pause == MinReal(3.0, deadline - now) && Sleep(w, now, pause) == (true, now + pause)
    requires last' == if w.poll(n).Got? then None else Some(w.poll(n).code)
    ensures Run(w, q, n, now, deadline, seen, last) == Run(w, q, n + 1, now + pause, deadline, seen, last')
  {
    hide Sleep;
    NothingFound(q, seen);
    var r := Run(w, q, n + 1, now + pause, deadline, seen, last');
    assert Rest(w, q, n + 1, now, now, deadline, seen, last') == r && [] + r.looked == r.looked;
    hide Rest;
  }

  /** A request to stop is met within a quarter of a second of sleeping: from `stop` on the control
      interrupts, and a sleep that would last longer ends before a quarter second has passed. */
  lemma {:induction false} SleepStopsSoon(w: World, now: real, remaining: real, stop: real)
    requires now <= stop && now + remaining >= stop + 0.25
    requires (forall t :: w.overrun(t) == 0.0) && forall t :: t >= stop ==> w.interrupted(t)
    ensures var (awake, t) := Sleep(w, now, remaining); !awake && t < stop + 0.25
    decreases if remaining <= 0.0 then 0 else (remaining * 4.0).Floor + 1
  {
    assert w.overrun(now) == 0.0;
    if !w.interrupted(now) {
      assert now < stop;
      var chunk := MinReal(0.25, remaining);
      if now + chunk <= stop {
        SleepStopsSoon(w, now + chunk, remaining - chunk, stop);
      } else {
        assert w.interrupted(now + chunk);
      }
    }
  }
}
