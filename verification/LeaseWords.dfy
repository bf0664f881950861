/** The payment routes in terms of what callers send and what is stored (api/payment_bridge.py):
    which words and which stored texts lead to which answer and which change. */
module LeaseWords {
  import opened Basics
  import opened Text
  import opened LeaseSpec
  import opened LeaseSafety
  import opened LeaseTheorems

  /** A word as the routes compare it. */
  function Said(text: string): string { Lower(Strip(text)) }

  // ---- payment callbacks ------------------------------------------------------------------------------

  predicate SaysPaid(w: string) { w in {"paid", "success"} }

  predicate SaysFailed(w: string) { w in {"failed", "failure"} }

  predicate SaysSkipped(w: string) { w in {"skipped", "skip"} }

  predicate SaysExpired(w: string) { w in {"link_expired", "expired", "invalid_link"} }

  predicate Understood(w: string) { SaysPaid(w) || SaysFailed(w) || SaysSkipped(w) || SaysExpired(w) }

  /** The callback and the account both name a reservation, and not the same. */
  predicate NamesAnother(p: Payment, a: Account) {
    && Strip(p.reservationId) != ""
    && a.meta.reservationId.Some? && Strip(a.meta.reservationId.value) != ""
    && Strip(a.meta.reservationId.value) != Strip(p.reservationId)
  }

  /** Row `i` is the first with the id or the address that the callback names. */
  predicate IsAddressee(rows: seq<Account>, t: Target, i: nat) {
    match t
    case ById(id) => i < |rows| && rows[i].id == id && forall j :: 0 <= j < i ==> rows[j].id != id
    case ByEmail(email) => i < |rows| && rows[i].email == email && forall j :: 0 <= j < i ==> rows[j].email != email
    case Nobody => false
  }

  lemma AddresseeIsFound(rows: seq<Account>, t: Target)
    ensures var i := Position(rows, t, 0); i < |rows| <==> exists j: nat :: IsAddressee(rows, t, j)
    ensures var i := Position(rows, t, 0); i < |rows| ==> IsAddressee(rows, t, i)
    ensures forall j: nat :: IsAddressee(rows, t, j) ==> j == Position(rows, t, 0)
  {
    var i := Position(rows, t, 0);
    forall j: nat | IsAddressee(rows, t, j) ensures j == i {
      assert Selects(t, rows[j]);
    }
    if i < |rows| {
      assert Selects(t, rows[i]);
      forall j | 0 <= j < i ensures !Selects(t, rows[j]) {}
      assert IsAddressee(rows, t, i);
    }
  }

  lemma WordsOfVerbs(text: string)
    ensures var v, w := PaymentVerb(text), Said(text);
      && (SaysPaid(w) <==> v == Some(PaidUp)) && (SaysFailed(w) <==> v == Some(FailedPay))
      && (SaysSkipped(w) <==> v == Some(Skipped)) && (SaysExpired(w) <==> v == Some(LinkExpired))
      && (Understood(w) <==> v.Some?)
  {
    hide Lower, Strip;
  }

  /** The answer to a payment callback, from its word, its addressee and its reservation; a
      callback that is not accepted changes nothing. */
  lemma PaymentAnswers(rows: seq<Account>, p: Payment, now: string)
    ensures var (after, reply) := Pay(rows, p, now);
      && (reply == BadRequest <==> !Understood(Said(p.status)) || p.target == Nobody)
      && (reply == NotFound <==>
            Understood(Said(p.status)) && p.target != Nobody && forall i: nat :: !IsAddressee(rows, p.target, i))
      && (reply == Conflict <==>
            Understood(Said(p.status)) && exists i: nat :: IsAddressee(rows, p.target, i) && NamesAnother(p, rows[i]))
      && (reply == Done <==>
            Understood(Said(p.status)) && exists i: nat :: IsAddressee(rows, p.target, i) && !NamesAnother(p, rows[i]))
      && (reply != Done ==> after == rows)
  {
    hide Paying, Understood, PaymentVerb, Strip, Lower;
    WordsOfVerbs(p.status);
    AddresseeIsFound(rows, p.target);
    var i := Position(rows, p.target, 0);
    hide Position;
    if i < |rows| {
      assert Mismatched(rows[i], p.reservationId) <==> NamesAnother(p, rows[i]) by {
        BlankIsBlank();
      }
      hide IsAddressee, Mismatched, NamesAnother;
      assert IsAddressee(rows, p.target, i);
    }
  }

  lemma BlankIsBlank()
    ensures Strip("") == ""
  {
    TrimTwice("", IsSpace);
  }

  /** The payment link after a callback with word `w`. */
  function LinkAfter(w: string, p: Payment, a: Account): string {
    if SaysExpired(w) then if p.refreshWanted && p.refresh.NewLink? then Strip(p.refresh.url) else ""
    else if SaysFailed(w) && p.clearUrl then ""
    else Link(a)
  }

  /** What an accepted payment callback does, from its word: "paid" and "success" - and no other
      word - make the account subscribed; every word ends the lease; an expired link is replaced
      by a fresh one or cleared, a failure clears it on request; nothing else happens to the link,
      and nothing at all to the other accounts. */
  lemma PaymentDoes(rows: seq<Account>, p: Payment, now: string, i: nat)
    requires Understood(Said(p.status)) && IsAddressee(rows, p.target, i) && !NamesAnother(p, rows[i])
    ensures var (after, w) := (Pay(rows, p, now).0, Said(p.status));
      && i < |after| == |rows| && (forall j :: 0 <= j < |rows| && j != i ==> after[j] == rows[j])
      && after[i].id == rows[i].id && after[i].email == rows[i].email
      && after[i].status == (if SaysPaid(w) then Subscribed else rows[i].status)
      && after[i].meta.reservationId == None && after[i].meta.status != "reserved"
      && (after[i].meta.status == "success" <==> SaysPaid(w))
      && Link(after[i]) == LinkAfter(w, p, rows[i])
      && after[i].meta.clientId == (if Strip(p.client) == "" then rows[i].meta.clientId else Strip(p.client))
  {
    hide Understood, PaymentVerb, PutAll;
    WordsOfVerbs(p.status);
    AddresseeIsFound(rows, p.target);
    PaymentAnswers(rows, p, now);
    PayingDoes(rows[i], PaymentVerb(p.status).value, p, now);
    hide Position, Paying, IsAddressee, SaysPaid, SaysFailed, SaysSkipped, SaysExpired, NamesAnother, Said, Link;
  }

  lemma PayingDoes(a: Account, v: Verb, p: Payment, now: string)
    ensures var b := Paying(a, v, p, now);
      && b.id == a.id && b.email == a.email && b.status == (if v == PaidUp then Subscribed else a.status)
      && b.meta.reservationId == None && b.meta.status != "reserved" && (b.meta.status == "success" <==> v == PaidUp)
      && Link(b) == if v == LinkExpired then if p.refreshWanted && p.refresh.NewLink? then Strip(p.refresh.url) else ""
                    else if v == FailedPay && p.clearUrl then "" else Link(a)
    ensures Paying(a, v, p, now).meta.clientId == if Strip(p.client) == "" then a.meta.clientId else Strip(p.client)
  {
    hide PutAll, Put, Trim, Lower;
    BlankIsBlank();
    if v == LinkExpired && p.refreshWanted && p.refresh.NewLink? {
      StripIdempotent(p.refresh.url);
    }
  }

  /** The plain word under which an accepted callback is recorded. */
  function RecordedAs(w: string): string {
    if SaysPaid(w) then "success" else if SaysFailed(w) then "failed" else if SaysSkipped(w) then "skipped"
    else "link_expired"
  }

  lemma {:induction false} PutAllPuts(m: map<string, string>, fields: seq<(string, string)>, k: nat)
    requires k < |fields| && fields[k].1 != "" && forall j :: k < j < |fields| ==> fields[j].0 != fields[k].0
    ensures fields[k].0 in PutAll(m, fields) && PutAll(m, fields)[fields[k].0] == fields[k].1
  {
    if k < |fields| - 1 {
      PutAllPuts(m, fields[..|fields| - 1], k);
    }
  }

  /** What an accepted payment callback leaves in the account's notes: the word it was understood
      as, and for a payment the reference, if one is given, and the time - the given one, or the
      callback's own. */
  lemma PaymentNotes(rows: seq<Account>, p: Payment, now: string, i: nat)
    requires Understood(Said(p.status)) && IsAddressee(rows, p.target, i) && !NamesAnother(p, rows[i])
    ensures var (after, w) := (Pay(rows, p, now).0, Said(p.status));
      && i < |after|
      && var notes := after[i].meta.notes;
         && "last_callback_status" in notes && notes["last_callback_status"] == RecordedAs(w)
         && (SaysPaid(w) && Strip(p.reference) != "" ==>
               "payment_reference" in notes && notes["payment_reference"] == Strip(p.reference))
         && (SaysPaid(w) && (Strip(p.paidAt) != "" || now != "") ==>
               "paid_at" in notes && notes["paid_at"] == if Strip(p.paidAt) != "" then Strip(p.paidAt) else now)
  {
    WordsOfVerbs(p.status);
    AddresseeIsFound(rows, p.target);
    PaymentAnswers(rows, p, now);
    PaymentIsPaying(rows, p, now, i);
    NotesOfVerb(rows[i], PaymentVerb(p.status).value, p, now);
    hide *;
    RecordedWord(Said(p.status), PaymentVerb(p.status).value, p.status);
  }

  lemma PaymentIsPaying(rows: seq<Account>, p: Payment, now: string, i: nat)
    requires PaymentVerb(p.status).Some? && i == Position(rows, p.target, 0) && i < |rows| && p.target != Nobody
    requires Pay(rows, p, now).1 == Done
    ensures i < |Pay(rows, p, now).0| && Pay(rows, p, now).0[i] == Paying(rows[i], PaymentVerb(p.status).value, p, now)
  {
    hide Paying, PaymentVerb, Position, Mismatched;
  }

  lemma RecordedWord(w: string, v: Verb, text: string)
    requires w == Said(text) && PaymentVerb(text) == Some(v)
    ensures Word(v) == RecordedAs(w) && (v == PaidUp <==> SaysPaid(w))
  {
    WordsOfVerbs(text);
    hide Said, PaymentVerb;
    VerbsExclude(w);
  }

  lemma VerbsExclude(w: string)
    ensures !(SaysPaid(w) && SaysFailed(w)) && !(SaysPaid(w) && SaysSkipped(w)) && !(SaysPaid(w) && SaysExpired(w))
    ensures !(SaysFailed(w) && SaysSkipped(w)) && !(SaysFailed(w) && SaysExpired(w))
    ensures !(SaysSkipped(w) && SaysExpired(w))
  {
  }

  lemma NotesOfVerb(a: Account, v: Verb, p: Payment, now: string)
    ensures var notes := Paying(a, v, p, now).meta.notes;
      && "last_callback_status" in notes && notes["last_callback_status"] == Word(v)
      && (v == PaidUp && Strip(p.reference) != "" ==>
            "payment_reference" in notes && notes["payment_reference"] == Strip(p.reference))
      && (v == PaidUp && (Strip(p.paidAt) != "" || now != "") ==>
            "paid_at" in notes && notes["paid_at"] == if Strip(p.paidAt) != "" then Strip(p.paidAt) else now)
  {
    hide PutAll, Put, Strip, SetLink, Or, Paying;
    match v
    case PaidUp => PaidIsNoted(a, p, now);
    case LinkExpired => ExpiredIsNoted(a, p, now);
    case _ => OthersAreNoted(a, v, p, now);
  }

  lemma PaidIsNoted(a: Account, p: Payment, now: string)
    ensures var b := Paying(a, PaidUp, p, now);
      && Noted(b, ("last_callback_status", "success"))
      && (Strip(p.reference) != "" ==> Noted(b, ("payment_reference", Strip(p.reference))))
      && (Strip(p.paidAt) != "" || now != "" ==>
            Noted(b, ("paid_at", if Strip(p.paidAt) != "" then Strip(p.paidAt) else now)))
  {
    hide Annotate, Strip, Noted, Clear;
    var last := ("last_callback_status", Word(PaidUp));
    var paid := [("payment_reference", Strip(p.reference)), ("paid_at", Or(Strip(p.paidAt), now)), last];
    var b := Clear(a, Word(PaidUp), Or(Strip(p.note), "grok payment success"), now).(status := Subscribed);
    AnnotationIsThere(b, Strip(p.client), paid, now, 2);
    if Strip(p.reference) != "" {
      AnnotationIsThere(b, Strip(p.client), paid, now, 0);
    }
    if Or(Strip(p.paidAt), now) != "" {
      AnnotationIsThere(b, Strip(p.client), paid, now, 1);
    }
  }

  lemma ExpiredIsNoted(a: Account, p: Payment, now: string)
    ensures Noted(Paying(a, LinkExpired, p, now), ("last_callback_status", "link_expired"))
  {
    hide Annotate, Strip, Noted, Clear, SetLink, Or;
    var last := ("last_callback_status", Word(LinkExpired));
    forall b: Account, x: (string, string) | x.0 != last.0
      ensures Noted(Annotate(b, Strip(p.client), [last, x], now), last)
    {
      AnnotationIsThere(b, Strip(p.client), [last, x], now, 0);
    }
    forall b: Account, x: (string, string), y: (string, string) | x.0 != last.0 && y.0 != last.0
      ensures Noted(Annotate(b, Strip(p.client), [last, x, y], now), last)
    {
      AnnotationIsThere(b, Strip(p.client), [last, x, y], now, 0);
    }
  }

  lemma OthersAreNoted(a: Account, v: Verb, p: Payment, now: string)
    requires v == FailedPay || v == Skipped
    ensures Noted(Paying(a, v, p, now), ("last_callback_status", Word(v)))
  {
    hide Annotate, Strip, Noted, Clear, SetLink, Or;
    var last := ("last_callback_status", Word(v));
    forall b: Account ensures Noted(Annotate(b, Strip(p.client), [last], now), last) {
      AnnotationIsThere(b, Strip(p.client), [last], now, 0);
    }
  }

  predicate Noted(a: Account, field: (string, string)) { field.0 in a.meta.notes && a.meta.notes[field.0] == field.1 }

  lemma AnnotationIsThere(b: Account, client: string, fields: seq<(string, string)>, now: string, k: nat)
    requires k < |fields| && fields[k].1 != "" && fields[k].0 != "updated_at"
    requires forall j :: k < j < |fields| ==> fields[j].0 != fields[k].0
    ensures Noted(Annotate(b, client, fields, now), fields[k])
  {
    hide PutAll;
    PutAllPuts(b.meta.notes, fields, k);
  }

  /** From the moment a callback says "paid" or "success" about an account and is not turned away,
      whatever else is called in whatever way, the account stays paid and no fetch returns it. */
  lemma PaidWordIsFinal(rows: seq<Account>, p: Payment, now: string, i: nat, es: seq<Event>)
    requires SaysPaid(Said(p.status)) && IsAddressee(rows, p.target, i) && !NamesAnother(p, rows[i])
    ensures var after := Apply(rows, PaymentRoute(p, now));
      i < |Run(after, es)| && Run(after, es)[i].status in {Subscribed, Completed} && NeverGiven(after, es, i)
  {
    hide Paying, PaymentVerb, Run, NeverGiven, Strip, Lower;
    WordsOfVerbs(p.status);
    AddresseeIsFound(rows, p.target);
    BlankIsBlank();
    hide Position, IsAddressee;
    PaymentIsFinal(rows, p, now, es);
  }

  // ---- completion callbacks ------------------------------------------------------------------------------

  predicate SaysComplete(w: string) { w in {"completed", "complete", "success", "done", "finished", "已完成"} }

  /** A completion is accepted exactly for the six words, about an account that has been paid; it
      makes that account completed and leaves its lease, its link and the others alone. */
  lemma CompletionDoes(rows: seq<Account>, status: string, t: Target, client: string, completedAt: string, now: string)
    ensures var (after, reply) := Complete(rows, status, t, client, completedAt, now);
      && (reply == Done <==>
            SaysComplete(Said(status))
            && exists i: nat :: IsAddressee(rows, t, i) && rows[i].status in {Subscribed, Completed})
      && (reply == Conflict <==>
            SaysComplete(Said(status))
            && exists i: nat :: IsAddressee(rows, t, i) && rows[i].status !in {Subscribed, Completed})
      && (reply == BadRequest <==> !SaysComplete(Said(status)) || t == Nobody)
      && (reply != Done ==> after == rows)
      && |after| == |rows|
      && forall i :: 0 <= i < |rows| ==>
           if reply == Done && IsAddressee(rows, t, i)
           then after[i].status == Completed && after[i].(status := rows[i].status, meta := rows[i].meta) == rows[i]
                && after[i].meta.reservationId == rows[i].meta.reservationId
                && after[i].meta.status == rows[i].meta.status
                && after[i].meta.clientId == (if Strip(client) == "" then rows[i].meta.clientId else Strip(client))
           else after[i] == rows[i]
  {
    hide PutAll, Put, Strip, Lower;
    assert IsComplete(status) <==> SaysComplete(Said(status));
    hide IsComplete, SaysComplete;
    AddresseeIsFound(rows, t);
    hide Position, IsAddressee;
  }

  // ---- fetching ---------------------------------------------------------------------------------------------

  /** The account can be paid for: not paid yet, and with a link in its own column or, if that is
      empty, in its extra data. */
  predicate Payable(a: Account) {
    a.status in {Registered, Trial} && Strip(if a.cashierUrl == "" then a.extraUrl else a.cashierUrl) != ""
  }

  /** It is leased to this client by name. */
  predicate LeasedByName(a: Account, client: string) {
    && Said(a.meta.status) == "reserved" && Strip(a.meta.kind) == "grok_payment"
    && Strip(client) != "" && Strip(a.meta.clientId) == Strip(client)
  }

  lemma AvailableMeans(a: Account, client: string)
    ensures Available(a, client) <==>
      Payable(a) && (LeasedByName(a, client) || Said(a.meta.status) !in {"reserved", "success"})
  {
    hide Strip, Lower;
  }

  /** A fetch whose limit is not met hands out exactly the payable accounts that are leased to the
      caller or neither leased nor reported paid; what was leased before stays as it is, and what
      is leased now carries a token of its own. */
  lemma FetchHandsOutExactly(rows: seq<Account>, e: Event, i: nat)
    requires e.FetchRoute? && e.limit > |rows| && i < |rows|
    ensures |Apply(rows, e)| == |rows|
    ensures i in Given(rows, e) <==>
      Payable(rows[i]) && (LeasedByName(rows[i], e.client) || Said(rows[i].meta.status) !in {"reserved", "success"})
    ensures i in Given(rows, e) ==>
      if LeasedByName(rows[i], e.client) then Apply(rows, e)[i] == rows[i]
      else Apply(rows, e)[i].meta.status == "reserved" && Apply(rows, e)[i].meta.kind == "grok_payment"
           && Apply(rows, e)[i].meta.reservationId == Some(e.tokens(i))
           && Apply(rows, e)[i] == rows[i].(meta := Apply(rows, e)[i].meta)
  {
    hide Available, Passed, FetchFrom, Payable, LeasedByName, Strip, Lower;
    AvailableMeans(rows[i], e.client);
    var end := ScanFrom(rows, 0, [], e.limit, e.client, e.tokens, e.now);
    var given := Given(rows, e);
    assert given[0..] == given;
    GivenAreFew(given, |rows|);
    FetchRow(rows, e, i);
    if Available(rows[i], e.client) {
      PassedMeans(rows[i], e.client, e.tokens(i), e.now);
    }
  }

  lemma PassedMeans(a: Account, client: string, token: string, now: string)
    requires Available(a, client)
    ensures var b := Passed(a, client, token, now);
      if LeasedByName(a, client) then b == a
      else b.meta.status == "reserved" && b.meta.kind == "grok_payment" && b.meta.reservationId == Some(token)
           && b == a.(meta := b.meta)
  {
    hide Strip, Lower;
  }

  /** An account that the remote side has reported paid, and that the table does not show as paid,
      is shown as paid by the next listing of paid accounts. */
  lemma ListingRepairs(rows: seq<Account>, i: nat)
    requires i < |rows|
    ensures var after := Apply(rows, PaidListRoute);
      |after| == |rows|
      && after[i] == if Said(rows[i].meta.status) == "success" && rows[i].status !in {Subscribed, Completed}
                     then rows[i].(status := Subscribed) else rows[i]
  {
    hide Strip, Lower;
  }

  /** A release by a client that names itself ends exactly its own leases - all of them, or those
      whose reservation it lists - and changes nothing else about the accounts. */
  lemma ReleaseEndsExactly(rows: seq<Account>, client: string, ids: set<string>, now: string, i: nat)
    requires i < |rows|
    ensures var after := Apply(rows, ReleaseRoute(client, ids, now));
      var a := rows[i];
      var own := Strip(client) != "" && a.meta.status == "reserved" && a.meta.kind == "grok_payment"
                 && Strip(a.meta.clientId) == Strip(client);
      var listed := ids == {}
                    || Strip(if a.meta.reservationId.Some? then a.meta.reservationId.value else "") in ids;
      && |after| == |rows| && (!(own && listed) ==> after[i] == a)
      && (own && listed ==>
            after[i] == a.(meta := after[i].meta) && after[i].meta.status == "released"
            && after[i].meta.reservationId == None && after[i].meta.clientId == a.meta.clientId)
  {
    hide Strip;
  }
}
