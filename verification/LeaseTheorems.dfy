/** The promises of the payment routes over every run. */
module LeaseTheorems {
  import opened Basics
  import opened Text
  import opened LeaseSpec
  import opened LeaseSafety

  /** Newly registered accounts carry no half of a lease. */
  ghost predicate WellBehaved(e: Event) { e.Register? ==> Sound(e.account) }

  // ---- one fetch ---------------------------------------------------------------------------------

  lemma FetchRow(rows: seq<Account>, e: Event, i: nat)
    requires e.FetchRoute? && i < |rows|
    ensures |Apply(rows, e)| == |rows|
    ensures Apply(rows, e)[i] == rows[i] || Apply(rows, e)[i] == Passed(rows[i], e.client, e.tokens(i), e.now)
    ensures i in Given(rows, e) ==>
              Available(rows[i], e.client) && Apply(rows, e)[i] == Passed(rows[i], e.client, e.tokens(i), e.now)
  {
    hide Passed, Available, FetchFrom;
    var end := ScanFrom(rows, 0, [], e.limit, e.client, e.tokens, e.now);
  }

  /** A fetch hands out, oldest first and each at most once, exactly the accounts available
      to the client among those it scanned; it stops early only at the limit; and each
      account handed out is then leased to the client. */
  lemma FetchGivesLeases(rows: seq<Account>, e: Event)
    requires e.FetchRoute? && e.limit >= 1 && Strip(e.client) != ""
    ensures |Given(rows, e)| <= e.limit && |Apply(rows, e)| == |rows|
    ensures forall k, l :: 0 <= k < l < |Given(rows, e)| ==> Given(rows, e)[k] < Given(rows, e)[l]
    ensures forall k :: 0 <= k < |Given(rows, e)| ==>
              Given(rows, e)[k] < |rows| && ReservedFor(Apply(rows, e)[Given(rows, e)[k]], e.client)
    ensures |Given(rows, e)| < e.limit ==> forall j :: 0 <= j < |rows| && Available(rows[j], e.client) ==>
      j in Given(rows, e)
  {
    hide Available, Passed, FetchFrom, ReservedFor;
    var end := ScanFrom(rows, 0, [], e.limit, e.client, e.tokens, e.now);
    var given := Given(rows, e);
    assert given[0..] == given;
    forall k | 0 <= k < |given| ensures given[k] < |rows| && ReservedFor(Apply(rows, e)[given[k]], e.client) {
      var i := given[k];
      assert i in given;
      FetchRow(rows, e, i);
      PassedIsLeased(rows[i], e.client, e.tokens(i), e.now);
    }
  }

  lemma PassedIsLeased(a: Account, client: string, token: string, now: string)
    requires Available(a, client) && Strip(client) != ""
    ensures ReservedFor(Passed(a, client, token, now), client)
  {
    hide Strip, Lower;
    if !ReservedFor(a, client) {
      ReserveIsSound(a, client, token, now);
    }
  }

  lemma PassedKeeps(a: Account, client: string, token: string, now: string)
    requires Sound(a)
    ensures Sound(Passed(a, client, token, now))
  {
    hide Strip, Lower;
    if NeedsRepair(a) {
      RepairedKeeps(a);
    } else if Fetchable(a) {
      ReserveIsSound(a, client, token, now);
    }
  }

  // ---- soundness over runs ---------------------------------------------------------------------------

  lemma FetchKeepsSound(rows: seq<Account>, e: Event)
    requires AllSound(rows) && e.FetchRoute?
    ensures AllSound(Apply(rows, e))
  {
    hide Sound, Passed, FetchFrom;
    var end := ScanFrom(rows, 0, [], e.limit, e.client, e.tokens, e.now);
    forall i | 0 <= i < |Apply(rows, e)| ensures Sound(Apply(rows, e)[i]) {
      FetchRow(rows, e, i);
      PassedKeeps(rows[i], e.client, e.tokens(i), e.now);
    }
  }

  lemma StepKeepsSound(rows: seq<Account>, e: Event)
    requires AllSound(rows) && WellBehaved(e)
    ensures AllSound(Apply(rows, e))
  {
    hide Sound, Fetch, Paying, Completing, ReleaseOne, Repaired, Releases, PaymentVerb, IsComplete;
    match e
    case Register(_) =>
    case FetchRoute(_, _, _, _) => FetchKeepsSound(rows, e);
    case ReleaseRoute(client, ids, now) =>
      forall i | 0 <= i < |rows| ensures Sound(ReleaseOne(rows[i], Strip(client), ids, now)) {
        ReleaseOneKeeps(rows[i], Strip(client), ids, now);
      }
    case PaymentRoute(p, now) =>
      var i := Position(rows, p.target, 0);
      if i < |rows| && PaymentVerb(p.status).Some? {
        PayingCloses(rows[i], PaymentVerb(p.status).value, p, now);
      }
    case CompleteRoute(_, target, client, completedAt, now) =>
      var i := Position(rows, target, 0);
      if i < |rows| && Paid(rows[i]) {
        CompletingKeeps(rows[i], client, completedAt, now);
      }
    case PaidListRoute =>
      forall i | 0 <= i < |rows| ensures Sound(Repaired(rows[i])) {
        RepairedKeeps(rows[i]);
      }
  }

  /** In every reachable table, whatever clients call themselves, an account carries a
      reservation id iff it is leased, and a leased account is unpaid and has a payment link. */
  lemma {:induction false} RunKeepsSound(rows: seq<Account>, es: seq<Event>)
    requires AllSound(rows) && forall k :: 0 <= k < |es| ==> WellBehaved(es[k])
    ensures AllSound(Run(rows, es))
    decreases |es|
  {
    hide AllSound, WellBehaved, Apply;
    if |es| > 0 {
      StepKeepsSound(rows, es[0]);
      RunKeepsSound(Apply(rows, es[0]), es[1..]);
    }
  }

  /** Leased accounts name a holder. */
  predicate Named(a: Account) { Leased(a) ==> Holder(a) != "" }

  lemma FetchNamesHolders(rows: seq<Account>, e: Event, i: nat)
    requires e.FetchRoute? && Strip(e.client) != "" && i < |Apply(rows, e)| && (i < |rows| ==> Named(rows[i]))
    ensures Named(Apply(rows, e)[i])
  {
    hide Trim, FetchFrom, Lower, Link;
    var end := ScanFrom(rows, 0, [], e.limit, e.client, e.tokens, e.now);
    FetchRow(rows, e, i);
    StripIdempotent(e.client);
  }

  lemma StepNamesHolders(rows: seq<Account>, e: Event, i: nat)
    requires i < |Apply(rows, e)| && (i < |rows| ==> Named(rows[i]))
    requires (e.FetchRoute? ==> Strip(e.client) != "") && (e.Register? ==> Named(e.account))
    ensures Named(Apply(rows, e)[i])
  {
    hide Trim, FetchFrom, PutAll, PaymentVerb, IsComplete, Lower, Link, SetLink, Releases;
    match e
    case FetchRoute(_, _, _, _) => FetchNamesHolders(rows, e, i);
    case PaymentRoute(p, now) =>
      if Apply(rows, e)[i] != rows[i] {
        PayingCloses(rows[i], PaymentVerb(p.status).value, p, now);
      }
    case CompleteRoute(_, _, client, _, _) => StripIdempotent(client);
    case _ =>
  }

  /** As long as every fetch names its client, every leased account names a holder. */
  lemma {:induction false} RunNamesHolders(rows: seq<Account>, es: seq<Event>)
    requires forall i :: 0 <= i < |rows| ==> Named(rows[i])
    requires forall k :: 0 <= k < |es| ==>
      (es[k].FetchRoute? ==> Strip(es[k].client) != "") && (es[k].Register? ==> Named(es[k].account))
    ensures forall i :: 0 <= i < |Run(rows, es)| ==> Named(Run(rows, es)[i])
    decreases |es|
  {
    hide Named, Apply, Strip;
    if |es| > 0 {
      forall i: nat | i < |Apply(rows, es[0])| ensures Named(Apply(rows, es[0])[i]) {
        StepNamesHolders(rows, es[0], i);
      }
      RunNamesHolders(Apply(rows, es[0]), es[1..]);
    }
  }

  // ---- exclusive leases --------------------------------------------------------------------------------

  lemma LeasedIsTaken(a: Account, client: string)
    requires Sound(a) && Leased(a) && Strip(client) != Holder(a)
    ensures !Available(a, client) && !NeedsRepair(a)
  {
    hide Strip, Lower;
    RoutesWritePlainWords(PaidUp);
  }

  lemma LeasedPasses(a: Account, client: string, token: string, now: string)
    requires !Available(a, client) && !NeedsRepair(a)
    ensures Passed(a, client, token, now) == a
  {
  }

  /** Another client's fetch neither returns a leased account nor touches it. */
  lemma NobodyElseFetches(rows: seq<Account>, e: Event, i: nat)
    requires e.FetchRoute? && i < |rows| && Sound(rows[i]) && Leased(rows[i]) && Strip(e.client) != Holder(rows[i])
    ensures |Apply(rows, e)| == |rows|
    ensures i !in Given(rows, e) && Apply(rows, e)[i] == rows[i]
  {
    hide Strip, Lower, FetchFrom, Available, Reserve, ReservedFor, Fetchable, BridgeStatus, Link;
    LeasedIsTaken(rows[i], e.client);
    LeasedPasses(rows[i], e.client, e.tokens(i), e.now);
    FetchRow(rows, e, i);
  }

  /** The two ways a lease ends: its holder releases it, or a payment callback is accepted. */
  predicate EndsLease(rows: seq<Account>, e: Event, i: nat)
    requires i < |rows|
  {
    match e
    case ReleaseRoute(client, ids, _) => Strip(client) != "" && Releases(rows[i], Strip(client), ids)
    case PaymentRoute(p, now) => Pay(rows, p, now).1 == Done && Position(rows, p.target, 0) == i
    case _ => false
  }

  lemma LeaseSurvivesStep(rows: seq<Account>, e: Event, i: nat)
    requires i < |rows| && Sound(rows[i]) && Leased(rows[i]) && !EndsLease(rows, e, i)
    ensures i < |Apply(rows, e)| && Apply(rows, e)[i] == rows[i]
    ensures i in Given(rows, e) ==> Strip(e.client) == Holder(rows[i])
  {
    hide Paying, Completing, PaymentVerb, IsComplete, Trim, FetchFrom, Lower;
    RoutesWritePlainWords(PaidUp);
    match e
    case FetchRoute(_, client, tokens, now) =>
      FetchRow(rows, e, i);
      if Strip(client) != Holder(rows[i]) {
        LeasedIsTaken(rows[i], client);
      }
    case _ =>
  }

  ghost predicate Undisturbed(rows: seq<Account>, es: seq<Event>, i: nat)
    decreases |es|
  {
    |es| == 0 || (i < |rows| && !EndsLease(rows, es[0], i) && Undisturbed(Apply(rows, es[0]), es[1..], i))
  }

  /** Every fetch of the run that returns account `i` is by `holder`. */
  ghost predicate OnlyFetchedBy(rows: seq<Account>, es: seq<Event>, i: nat, holder: string)
    decreases |es|
  {
    |es| == 0 ||
    ((i in Given(rows, es[0]) ==> Strip(es[0].client) == holder)
      && OnlyFetchedBy(Apply(rows, es[0]), es[1..], i, holder))
  }

  /** Exclusive lease: until the holder releases or a payment callback is accepted, over any
      run of any calls, the account stays exactly as leased - same client, same reservation id -
      and only the holder's fetches return it. */
  lemma {:induction false} LeaseIsExclusive(rows: seq<Account>, es: seq<Event>, i: nat)
    requires i < |rows| && Sound(rows[i]) && Leased(rows[i]) && Undisturbed(rows, es, i)
    ensures i < |Run(rows, es)| && Run(rows, es)[i] == rows[i]
    ensures OnlyFetchedBy(rows, es, i, Holder(rows[i]))
    decreases |es|
  {
    hide Sound, Apply, EndsLease, Leased, Holder, Given;
    if |es| > 0 {
      LeaseSurvivesStep(rows, es[0], i);
      LeaseIsExclusive(Apply(rows, es[0]), es[1..], i);
    }
  }

  /** No payment callback for account `i` is accepted. */
  ghost predicate NeverPaidFor(rows: seq<Account>, es: seq<Event>, i: nat)
    decreases |es|
  {
    |es| == 0 || (i < |rows| && !(es[0].PaymentRoute? && EndsLease(rows, es[0], i))
                  && NeverPaidFor(Apply(rows, es[0]), es[1..], i))
  }

  /** A lease that names no holder, as a blank client takes it, belongs to nobody: over any run
      without an accepted payment callback for it no fetch returns the account, its own taker's
      included, and nobody can release it. */
  lemma {:induction false} BlankLeaseIsStuck(rows: seq<Account>, es: seq<Event>, i: nat)
    requires i < |rows| && Sound(rows[i]) && Leased(rows[i]) && Holder(rows[i]) == ""
    requires NeverPaidFor(rows, es, i)
    ensures i < |Run(rows, es)| && Run(rows, es)[i] == rows[i] && NeverGiven(rows, es, i)
    decreases |es|
  {
    hide Sound, Apply, Leased, EndsLease, Holder, Given;
    if |es| > 0 {
      if EndsLease(rows, es[0], i) {
        NobodyReleasesBlank(rows, es[0], i);
      }
      LeaseSurvivesStep(rows, es[0], i);
      NobodyIsGivenBlank(rows, es[0], i);
      BlankLeaseIsStuck(Apply(rows, es[0]), es[1..], i);
    }
  }

  lemma NobodyReleasesBlank(rows: seq<Account>, e: Event, i: nat)
    requires i < |rows| && Holder(rows[i]) == "" && EndsLease(rows, e, i)
    ensures e.PaymentRoute?
  {
    hide Pay, Position, Strip;
  }

  lemma NobodyIsGivenBlank(rows: seq<Account>, e: Event, i: nat)
    requires i < |rows| && Sound(rows[i]) && Leased(rows[i]) && Holder(rows[i]) == ""
    ensures i !in Given(rows, e)
  {
    hide Strip, Lower, FetchFrom, Link;
    RoutesWritePlainWords(PaidUp);
    if e.FetchRoute? {
      FetchRow(rows, e, i);
    }
  }

  // ---- paid accounts -------------------------------------------------------------------------------------

  lemma PaidStaysPaid(rows: seq<Account>, e: Event, i: nat)
    requires i < |rows| && Paid(rows[i])
    ensures i < |Apply(rows, e)| && Paid(Apply(rows, e)[i]) && i !in Given(rows, e)
  {
    hide Link, BridgeStatus, PutAll, PaymentVerb, IsComplete, Strip, FetchFrom, Releases;
    match e
    case FetchRoute(_, client, tokens, now) => FetchRow(rows, e, i);
    case _ =>
  }

  ghost predicate NeverGiven(rows: seq<Account>, es: seq<Event>, i: nat)
    decreases |es|
  {
    |es| == 0 || (i !in Given(rows, es[0]) && NeverGiven(Apply(rows, es[0]), es[1..], i))
  }

  /** A paid account stays paid and is never handed out again, whatever routes are called
      with whatever arguments - blank client ids and foreign statuses included. */
  lemma {:induction false} PaidNeverReturns(rows: seq<Account>, es: seq<Event>, i: nat)
    requires i < |rows| && Paid(rows[i])
    ensures i < |Run(rows, es)| && Paid(Run(rows, es)[i]) && NeverGiven(rows, es, i)
    decreases |es|
  {
    hide Paid, Apply, Given;
    if |es| > 0 {
      PaidStaysPaid(rows, es[0], i);
      PaidNeverReturns(Apply(rows, es[0]), es[1..], i);
    }
  }

  /** A successful payment is where that begins; it is accepted for the lease's own id, for
      no id, and for accounts without a live lease. */
  lemma SuccessfulPaymentPays(rows: seq<Account>, p: Payment, now: string)
    requires PaymentVerb(p.status) == Some(PaidUp) && p.target != Nobody
    requires var i := Position(rows, p.target, 0); i < |rows| && !Mismatched(rows[i], p.reservationId)
    ensures Pay(rows, p, now).1 == Done && Paid(Pay(rows, p, now).0[Position(rows, p.target, 0)])
  {
    hide Mismatched, PutAll, Position;
  }

  /** A callback naming another reservation than the live one changes nothing at all. */
  lemma StrangerCallbackChangesNothing(rows: seq<Account>, p: Payment, now: string)
    requires var i := Position(rows, p.target, 0);
             i < |rows| && Strip(p.reservationId) != "" && Strip(ReservationId(rows[i])) != ""
             && Strip(p.reservationId) != Strip(ReservationId(rows[i]))
    ensures Apply(rows, PaymentRoute(p, now)) == rows && Pay(rows, p, now).1 != Done
  {
    hide Paying, Strip, PaymentVerb, ReservationId, Position;
  }

  /** From a successful payment on, over any run of any calls, the account stays paid and no fetch
      hands it out. */
  lemma PaymentIsFinal(rows: seq<Account>, p: Payment, now: string, es: seq<Event>)
    requires PaymentVerb(p.status) == Some(PaidUp) && p.target != Nobody
    requires var i := Position(rows, p.target, 0); i < |rows| && !Mismatched(rows[i], p.reservationId)
    ensures var i, after := Position(rows, p.target, 0), Apply(rows, PaymentRoute(p, now));
      i < |Run(after, es)| && Paid(Run(after, es)[i]) && NeverGiven(after, es, i)
  {
    hide Paying, Mismatched, Position, Paid, Run, NeverGiven;
    SuccessfulPaymentPays(rows, p, now);
    PaidNeverReturns(Apply(rows, PaymentRoute(p, now)), es, Position(rows, p.target, 0));
  }

  /** Calls that do not come from the holder of `a`'s lease: releases in another name, and payment
      callbacks that name another reservation. */
  predicate Foreign(e: Event, a: Account) {
    match e
    case ReleaseRoute(client, _, _) => Strip(client) != Holder(a)
    case PaymentRoute(p, _) => Strip(p.reservationId) != "" && Strip(p.reservationId) != Strip(ReservationId(a))
    case _ => true
  }

  lemma ForeignEndsNothing(rows: seq<Account>, e: Event, i: nat)
    requires i < |rows| && Strip(ReservationId(rows[i])) != "" && Foreign(e, rows[i])
    ensures !EndsLease(rows, e, i)
  {
    hide Strip, Position;
    match e
    case PaymentRoute(p, now) =>
      if Position(rows, p.target, 0) == i {
        StrangerCallbackChangesNothing(rows, p, now);
      }
      hide Pay;
    case _ =>
  }

  /** Strangers can not end a lease: over any run in which releases come in other names and payment
      callbacks name other reservations - whatever their status, target and number, and whatever
      is fetched, completed or listed - the account stays leased to its holder and to nobody else. */
  lemma {:induction false} LeaseSurvivesStrangers(rows: seq<Account>, es: seq<Event>, i: nat)
    requires i < |rows| && Sound(rows[i]) && Leased(rows[i]) && Strip(ReservationId(rows[i])) != ""
    requires forall k :: 0 <= k < |es| ==> Foreign(es[k], rows[i])
    ensures i < |Run(rows, es)| && Run(rows, es)[i] == rows[i]
    ensures OnlyFetchedBy(rows, es, i, Holder(rows[i]))
    decreases |es|
  {
    hide Sound, Apply, EndsLease, Leased, Holder, Given, Foreign, Strip, ReservationId;
    if |es| > 0 {
      ForeignEndsNothing(rows, es[0], i);
      LeaseSurvivesStep(rows, es[0], i);
      LeaseSurvivesStrangers(Apply(rows, es[0]), es[1..], i);
    }
  }

  // ---- blank client ids -----------------------------------------------------------------------------------

  /** The account counts as leased to this client. */
  predicate LeasedTo(a: Account, client: string) { BridgeStatus(a) == RESERVED && Holder(a) == Strip(client) }

  lemma GivenIsLeasedTo(a: Account, client: string, token: string, now: string)
    requires Available(a, client)
    ensures LeasedTo(Passed(a, client, token, now), client) <==> Strip(client) != "" || Holder(a) == ""
  {
    hide Trim, Lower, PlainWord;
    RoutesWritePlainWords(PaidUp);
    PlainWordNormal(RESERVED);
    StripIdempotent(client);
    TrimTwice("", IsSpace);
    assert Strip("") == "";
  }

  /** A fetch leases every account it hands out to its caller exactly when the caller names
      itself or none of these accounts has a recorded holder. */
  lemma FetchLeasesToItsCallerExactly(rows: seq<Account>, e: Event)
    requires e.FetchRoute?
    ensures |Apply(rows, e)| == |rows| && forall i :: i in Given(rows, e) ==> i < |rows|
    ensures (forall i :: i in Given(rows, e) ==> LeasedTo(Apply(rows, e)[i], e.client)) <==>
      Strip(e.client) != "" || forall i :: i in Given(rows, e) ==> Holder(rows[i]) == ""
  {
    hide Strip, FetchFrom, Available, Passed, LeasedTo;
    var end := ScanFrom(rows, 0, [], e.limit, e.client, e.tokens, e.now);
    forall i | i in Given(rows, e)
      ensures i < |rows|
      ensures LeasedTo(Apply(rows, e)[i], e.client) <==> Strip(e.client) != "" || Holder(rows[i]) == ""
    {
      FetchRow(rows, e, i);
      GivenIsLeasedTo(rows[i], e.client, e.tokens(i), e.now);
    }
  }

  lemma BlankReserveResumes(a: Account, client: string, token: string, now: string)
    requires Available(a, client) && Strip(client) == "" && Holder(a) != ""
    ensures var b := Passed(a, client, token, now); ReservedFor(b, Holder(a)) && !NeedsRepair(b)
  {
    hide Trim, Lower, PlainWord;
    RoutesWritePlainWords(PaidUp);
    PlainWordNormal(RESERVED);
    PlainWordNormal(GROK_PAYMENT);
    StripIdempotent(a.meta.clientId);
  }

  /** What that leads to: whatever a blank client is handed although a holder is recorded is
      handed, with the blank client's reservation, to that holder by its next unlimited fetch. */
  lemma BlankFetchIsResumed(rows: seq<Account>, e: Event, again: Event, i: nat)
    requires e.FetchRoute? && Strip(e.client) == "" && i in Given(rows, e) && i < |rows| && Holder(rows[i]) != ""
    requires again.FetchRoute? && again.client == Holder(rows[i]) && again.limit > |rows|
    ensures var after := Apply(rows, e);
      i < |after| && i in Given(after, again) && i < |Apply(after, again)|
      && Apply(after, again)[i] == after[i] && after[i].meta.reservationId == Some(e.tokens(i))
  {
    hide Strip, FetchFrom, Available, Passed, ReservedFor, NeedsRepair;
    var after := Apply(rows, e);
    FetchRow(rows, e, i);
    BlankReserveResumes(rows[i], e.client, e.tokens(i), e.now);
    StillThere(after[i], Holder(rows[i]), again.tokens(i), again.now);
    BlankTakesTheToken(rows[i], e.client, e.tokens(i), e.now);
    var end := ScanFrom(after, 0, [], again.limit, again.client, again.tokens, again.now);
    var given := Given(after, again);
    GivenAreFew(given, |after|);
    assert given[0..] == given;
    FetchRow(after, again, i);
  }

  lemma StillThere(a: Account, client: string, token: string, now: string)
    requires ReservedFor(a, client) && !NeedsRepair(a)
    ensures Available(a, client) && Passed(a, client, token, now) == a
  {
    hide ReservedFor, NeedsRepair;
  }

  lemma BlankTakesTheToken(a: Account, client: string, token: string, now: string)
    requires Available(a, client) && Strip(client) == ""
    ensures Passed(a, client, token, now).meta.reservationId == Some(token)
  {
    hide Link, BridgeStatus;
  }

  /** Ascending row numbers below `n` are at most `n`. */
  lemma {:induction false} GivenAreFew(given: seq<nat>, n: nat)
    requires forall k :: 0 <= k < |given| ==> given[k] < n
    requires forall k, l :: 0 <= k < l < |given| ==> given[k] < given[l]
    ensures |given| <= n
  {
    if |given| > 0 {
      GivenAreFew(given[..|given| - 1], given[|given| - 1]);
    }
  }

  function Fresh(): Account { Account(1, "x@y", Registered, "https://pay", "", NoMeta()) }

  lemma FetchOfOne(a: Account, client: string, tokens: nat -> string, now: string)
    requires Available(a, client)
    ensures var e := FetchRoute(10, client, tokens, now);
      Given([a], e) == [0] && Apply([a], e) == [Passed(a, client, tokens(0), now)]
  {
    hide Available, Passed, FetchFrom;
    ScanStep([a], 0, [], 10, client, tokens, now);
    var b := Passed(a, client, tokens(0), now);
    assert [a][0 := b] == [b] && [] + [0] == [0];
    ScanEnds([b], [0], 10, client, tokens, now);
    assert Fetch([a], 10, client, tokens, now) == Fetched([b], [0]);
  }

  /** The three states of the account. */
  lemma FreshLeasedReleased(tokens: nat -> string, now: string)
    ensures var leased := Reserve(Fresh(), "A", tokens(0), now);
      var released := Clear(leased, RELEASED, "released by client " + "A", now);
      && Available(Fresh(), "A") && Passed(Fresh(), "A", tokens(0), now) == leased
      && Releases(leased, "A", {}) && Available(released, "") && Holder(released) == "A"
  {
    hide Trim;
    RoutesWritePlainWords(PaidUp);
    PlainWordNormal(RESERVED);
    PlainWordNormal(RELEASED);
    PlainWordNormal(GROK_PAYMENT);
    TrimTwice("A", IsSpace);
    TrimTwice("https://pay", IsSpace);
    TrimTwice("", IsSpace);
    assert Lower("") == "";
    assert RELEASED != SUCCESS && RESERVED != SUCCESS;
  }

  /** The failing run: A fetches and releases, a blank client is handed the account - and so is A
      by its next fetch, under the blank client's reservation. */
  lemma BlankClientInheritsHolder(tokens: nat -> string, now: string)
    ensures var fetch, release := FetchRoute(10, "A", tokens, now), ReleaseRoute("A", {}, now);
      var blank := FetchRoute(10, "", tokens, now);
      var fetched := Apply([Fresh()], fetch);
      var released := Apply(fetched, release);
      var taken := Apply(released, blank);
      && Given([Fresh()], fetch) == [0] && Given(released, blank) == [0] && Given(taken, fetch) == [0]
      && Run([Fresh()], [fetch, release, blank, fetch]) == taken
      && |taken| == 1 && taken[0].meta.reservationId == Some(tokens(0)) && ReservedFor(taken[0], "A")
      && !LeasedTo(taken[0], "")
  {
    hide Available, Passed, Strip, Fresh, Reserve, Clear, Releases, ReservedFor, LeasedTo, Fetch;
    var fetch, release := FetchRoute(10, "A", tokens, now), ReleaseRoute("A", {}, now);
    var blank := FetchRoute(10, "", tokens, now);
    var leased := Reserve(Fresh(), "A", tokens(0), now);
    var released := Clear(leased, RELEASED, "released by client " + "A", now);
    var taken := Passed(released, "", tokens(0), now);
    FreshLeasedReleased(tokens, now);
    TextsAreTrimmed();
    FetchOfOne(Fresh(), "A", tokens, now);
    assert ReleaseOne(leased, "A", {}, now) == released;
    assert Apply([leased], release) == [released];
    FetchOfOne(released, "", tokens, now);
    BlankReserveResumes(released, "", tokens(0), now);
    BlankTakesTheToken(released, "", tokens(0), now);
    GivenIsLeasedTo(released, "", tokens(0), now);
    StillThere(taken, "A", tokens(0), now);
    FetchOfOne(taken, "A", tokens, now);
    FourRoutes([Fresh()], fetch, release, blank, fetch);
  }

  /** A blank client is handed an account nobody has held: now it is leased to nobody, and no later
      fetch or release reaches it. */
  lemma BlankLeaseReachesNobody(tokens: nat -> string, now: string, es: seq<Event>)
    requires NeverPaidFor(Apply([Fresh()], FetchRoute(10, "", tokens, now)), es, 0)
    ensures var blank := FetchRoute(10, "", tokens, now);
      var taken := Apply([Fresh()], blank);
      && Given([Fresh()], blank) == [0] && |taken| == 1 && Leased(taken[0])
      && 0 < |Run(taken, es)| && Run(taken, es)[0] == taken[0] && NeverGiven(taken, es, 0)
  {
    FreshIsFetchable(tokens, now);
    FetchOfOne(Fresh(), "", tokens, now);
    ReserveIsSound(Fresh(), "", tokens(0), now);
    hide Reserve, Fresh, Passed, Available, Run, NeverGiven, Sound, Leased, Given, Apply, NeverPaidFor, Holder;
    BlankLeaseIsStuck([Passed(Fresh(), "", tokens(0), now)], es, 0);
  }

  lemma FreshIsFetchable(tokens: nat -> string, now: string)
    ensures Fetchable(Fresh()) && Available(Fresh(), "") && Strip("") == ""
    ensures Passed(Fresh(), "", tokens(0), now) == Reserve(Fresh(), "", tokens(0), now)
    ensures Holder(Passed(Fresh(), "", tokens(0), now)) == ""
  {
    TrimTwice("https://pay", IsSpace);
    TextsAreTrimmed();
    hide Trim;
    assert Lower("") == "";
  }

  lemma TextsAreTrimmed()
    ensures Strip("") == "" && Strip("A") == "A"
  {
    TrimTwice("A", IsSpace);
    TrimTwice("", IsSpace);
  }

  lemma FourRoutes(rows: seq<Account>, a: Event, b: Event, c: Event, d: Event)
    ensures Run(rows, [a, b, c, d]) == Apply(Apply(Apply(Apply(rows, a), b), c), d)
  {
    hide Apply;
    FirstRoute(rows, a, [b, c, d]);
    FirstRoute(Apply(rows, a), b, [c, d]);
    FirstRoute(Apply(Apply(rows, a), b), c, [d]);
    FirstRoute(Apply(Apply(Apply(rows, a), b), c), d, []);
    assert [a] + [b, c, d] == [a, b, c, d] && [b] + [c, d] == [b, c, d] && [c] + [d] == [c, d] && [d] + [] == [d];
  }

  lemma FirstRoute(rows: seq<Account>, e: Event, es: seq<Event>)
    ensures Run(rows, [e] + es) == Run(Apply(rows, e), es)
    ensures Run(rows, []) == rows
  {
    hide Apply;
    assert ([e] + es)[1..] == es;
  }
}
