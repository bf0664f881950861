/** The Gmail reader: its baseline and its waiting loop (core/gmail_mailbox.py). */
module GmailMailbox {
  import opened Basics
  import opened Text
  import opened MailWait

  function Ids(messages: seq<Message>): set<string> {
    set i | 0 <= i < |messages| :: messages[i].id
  }

  /** One round of the wait: it is over, or goes on at `t`. */
  datatype Round = Over(report: Report) | Next(t: real, last: Option<string>)

  lemma ExtendTwice(a: seq<string>, b: seq<string>, r: Report)
    ensures Extend(a, Extend(b, r)) == Extend(a + b, r)
  {
    assert a + (b + r.looked) == a + b + r.looked;
  }

  lemma RunEnds(w: World, q: Query, n: nat, t: real, deadline: real, seen: set<string>, last: Option<string>)
    requires t >= deadline
    ensures Run(w, q, n, t, deadline, seen, last) == End(w, t, n, last)
  {
  }

  class Mailbox {
    var baseline: set<string>
    var baselineAt: real

    constructor (now: real)
      ensures baseline == {} && baselineAt == now
    {
      baseline, baselineAt := {}, now;
    }

    /** `get_current_ids`: a listing that fails leaves the old baseline. */
    method GetCurrentIds(
        email: string, started: real, listing: Outcome) returns (ids: Basics.Result<set<string>, string>)
      modifies this
      ensures listing.Got? ==>
        ids == Basics.Ok(Ids(ForMe(email, listing.messages))) && baseline == ids.value && baselineAt == started
      ensures !listing.Got? ==> ids.Err? && baseline == old(baseline) && baselineAt == old(baselineAt)
    {
      if !listing.Got? {
        return Basics.Err("listing failed");
      }
      baseline := Ids(ForMe(email, listing.messages));
      baselineAt := started;
      ids := Basics.Ok(baseline);
    }

    /** `_wait`: `q.after` is replaced by the requested time or the time of the baseline. */
    method Wait(w: World, q: Query, now: real, timeout: int, beforeIds: Option<set<string>>, notBefore: Option<real>)
        returns (r: Report)
      ensures r == Run(w, q.(after := if notBefore.Some? then notBefore else Some(baselineAt)), 0, now,
                       now + (if timeout > 1 then timeout else 1) as real,
                       if beforeIds.Some? then beforeIds.value else baseline, None)
    {
      hide Run, Rest, End;
      var deadline := now + (if timeout > 1 then timeout else 1) as real;
      var seen := if beforeIds.Some? then beforeIds.value else baseline;
      var query := q.(after := if notBefore.Some? then notBefore else Some(baselineAt));
      ghost var whole := Run(w, query, 0, now, deadline, seen, None);
      var n, t, last := 0, now, None;
      var looked: seq<string> := [];
      while t < deadline
        invariant Extend(looked, Run(w, query, n, t, deadline, seen, last)) == whole
        decreases Left(t, deadline)
      {
        var ids, after, round;
        round, after, ids := AskOnce(w, query, n, t, deadline, seen, last);
        if round.Over? {
          return Extend(looked, round.report);
        }
        var pause := Pause(w, query, n + 1, t, round.t, deadline, after, round.last);
        ExtendTwice(looked, ids, Rest(w, query, n + 1, t, round.t, deadline, after, round.last));
        looked := looked + ids;
        if pause.Over? {
          return Extend(looked, pause.report);
        }
        n, t, seen, last := n + 1, pause.t, after, round.last;
      }
      RunEnds(w, query, n, t, deadline, seen, last);
      r := Extend(looked, End(w, t, n, last));
    }

    /** One look at the mailbox: the wait is over, or goes on at some time with what is known of the
        last failure. */
    method AskOnce(w: World, q: Query, n: nat, now: real, deadline: real, seen: set<string>, last: Option<string>)
        returns (round: Round, after: set<string>, looked: seq<string>)
      requires now < deadline
      ensures round.Over? ==> Run(w, q, n, now, deadline, seen, last) == round.report
      ensures round.Next? ==> round.t >= now
      ensures round.Next? ==>
        Run(w, q, n, now, deadline, seen, last)
        == Extend(looked, Rest(w, q, n + 1, now, round.t, deadline, after, round.last))
    {
      hide Rest, Scan, Looked, ForMe, Classify, Transient;
      after, looked := seen, [];
      if w.interrupted(now) {
        return Over(Report(Interrupted, now, n, [])), after, looked;
      }
      var t := now + Positive(w.cost(n));
      match w.poll(n) {
        case Raised(error) =>
          round := Over(Report(Broken(error), t, n, []));
        case ReadFailed(code) =>
          if !Transient(Classify(code)) {
            round := Over(Report(ReadError(Classify(code)), t, n, []));
          } else if w.interrupted(t) {
            round := Over(Report(Interrupted, t, n, []));
          } else {
            round := Next(t, Some(Classify(code)));
          }
        case Got(messages) =>
          if w.interrupted(t) {
            round := Over(Report(Interrupted, t, n, []));
          } else {
            var value;
            after, looked, value := Poll(q, ForMe(q.email, messages), seen);
            round := if value.Some? then Over(Report(Found(value.value), t, n + 1, looked)) else Next(t, None);
          }
      }
    }

    /** The sleep between two looks, at most three seconds and not past the deadline. */
    method Pause(
        w: World, q: Query, n: nat, began: real, t: real, deadline: real, seen: set<string>, last: Option<string>)
        returns (round: Round)
      requires began <= t && began < deadline
      ensures round.Over? ==> Rest(w, q, n, began, t, deadline, seen, last) == round.report
      ensures round.Next? ==> Left(round.t, deadline) < Left(began, deadline)
      ensures round.Next? ==>
        Rest(w, q, n, began, t, deadline, seen, last) == Run(w, q, n, round.t, deadline, seen, last)
    {
      hide Run, Sleep;
      if deadline - t <= 0.0 {
        return Over(End(w, t, n, last));
      }
      var awake, later := SleepWithCheckpoint(w, t, MinReal(3.0, deadline - t));
      round := if awake then Next(later, last) else Over(Report(Interrupted, later, n, []));
    }

    /** The inner `poll`: one pass over the messages of one listing. */
    method Poll(q: Query, messages: seq<Message>, before: set<string>)
        returns (seen: set<string>, looked: seq<string>, value: Option<string>)
      ensures (seen, value) == Scan(q, messages, before) && looked == Looked(q, messages, before)
    {
      hide Yield;
      seen, looked, value := before, [], None;
      assert messages[0..] == messages;
      for i := 0 to |messages|
        invariant Scan(q, messages[i..], seen) == Scan(q, messages, before)
        invariant looked + Looked(q, messages[i..], seen) == Looked(q, messages, before)
      {
        var m := messages[i];
        assert messages[i..][0] == m && messages[i..][1..] == messages[i + 1..];
        if m.id == "" || m.id in seen {
          continue;
        }
        looked := looked + [m.id];
        seen := seen + {m.id};
        value := Yield(q, m);
        if value.Some? {
          return;
        }
      }
      value := None;
    }

    /** `_sleep_with_checkpoint`. */
    method SleepWithCheckpoint(w: World, now: real, seconds: real) returns (awake: bool, t: real)
      ensures (awake, t) == Sleep(w, now, seconds)
    {
      t := now;
      var remaining := seconds;
      while remaining > 0.0
        invariant Sleep(w, t, remaining) == Sleep(w, now, seconds)
        decreases if remaining <= 0.0 then 0 else (remaining * 4.0).Floor + 1
      {
        if w.interrupted(t) {
          return false, t;
        }
        var chunk := MinReal(0.25, remaining);
        t := t + chunk + Positive(w.overrun(t));
        remaining := remaining - chunk;
      }
      awake := true;
    }
  }
}
