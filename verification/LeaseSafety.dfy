/** What every run of the payment routes keeps: exclusive leases, and no second sale. */
module LeaseSafety {
  import opened Basics
  import opened Text
  import opened LeaseSpec

  // ---- one account --------------------------------------------------------------------------------

  /** The recorded holder of a lease. */
  function Holder(a: Account): string { Strip(a.meta.clientId) }

  predicate Leased(a: Account) { a.meta.status == RESERVED }

  /** A reservation id is present exactly on leased accounts; leased accounts are unpaid,
      have a link. */
  ghost predicate Sound(a: Account) {
    && (a.meta.reservationId.Some? <==> Leased(a))
    && BridgeStatus(a) == a.meta.status
    && (Leased(a) ==> Unpaid(a) && Link(a) != "" && a.meta.kind == GROK_PAYMENT)
  }

  ghost predicate AllSound(rows: seq<Account>) {
    forall i :: 0 <= i < |rows| ==> Sound(rows[i])
  }

  lemma StripIdempotent(s: string)
    ensures Strip(Strip(s)) == Strip(s)
  {
    TrimShape(s, IsSpace);
    TrimTwice(Strip(s), IsSpace);
  }

  /** A text that trimming and lower-casing leave alone. */
  predicate PlainWord(s: string) {
    s != "" && forall i :: 0 <= i < |s| ==> !IsSpace(s[i]) && LowerChar(s[i]) == s[i]
  }

  lemma PlainWordNormal(s: string)
    requires PlainWord(s)
    ensures Lower(Strip(s)) == s && Strip(s) == s
  {
    TrimTwice(s, IsSpace);
    assert Lower(s) == s;
  }

  /** The words the routes write are plain, and only the lock word is the lock word. */
  lemma RoutesWritePlainWords(v: Verb)
    ensures PlainWord(RESERVED) && PlainWord(RELEASED) && PlainWord(GROK_PAYMENT) && PlainWord(Word(v))
    ensures RELEASED != RESERVED && SUCCESS != RESERVED && Word(v) != RESERVED
  {
  }

  /** A cleared lock: a plain word that is not the lock word, and no reservation id. */
  ghost predicate Closed(a: Account, word: string) {
    PlainWord(word) && word != RESERVED && a.meta.status == word && a.meta.reservationId == None
  }

  lemma ClosedIsSound(a: Account, word: string)
    requires Closed(a, word)
    ensures Sound(a) && !Leased(a)
  {
    PlainWordNormal(word);
  }

  lemma ReserveIsSound(a: Account, client: string, token: string, now: string)
    requires Fetchable(a)
    ensures Sound(Reserve(a, Strip(client), token, now)) && Leased(Reserve(a, Strip(client), token, now))
    ensures Strip(client) != "" ==>
      Holder(Reserve(a, Strip(client), token, now)) == Strip(client)
      && ReservedFor(Reserve(a, Strip(client), token, now), client)
  {
    hide PlainWord, Trim, Lower;
    RoutesWritePlainWords(PaidUp);
    PlainWordNormal(RESERVED);
    PlainWordNormal(GROK_PAYMENT);
    StripIdempotent(client);
  }

  /** Every branch of an accepted payment callback ends the lease, and payment is never
      taken back. */
  lemma PayingCloses(a: Account, v: Verb, p: Payment, now: string)
    ensures Sound(Paying(a, v, p, now)) && !Leased(Paying(a, v, p, now))
    ensures Paid(a) || v == PaidUp ==> Paid(Paying(a, v, p, now))
    ensures Paying(a, v, p, now).meta.status == Word(v)
  {
    hide PlainWord, Strip, Lower, PutAll, Word;
    RoutesWritePlainWords(v);
    ClosedIsSound(Paying(a, v, p, now), Word(v));
  }

  lemma CompletingKeeps(a: Account, client: string, completedAt: string, now: string)
    requires Sound(a) && Paid(a)
    ensures Sound(Completing(a, client, completedAt, now)) && Paid(Completing(a, client, completedAt, now))
  {
  }

  lemma ReleaseOneKeeps(a: Account, client: string, ids: set<string>, now: string)
    requires Sound(a)
    ensures Sound(ReleaseOne(a, client, ids, now))
    ensures ReleaseOne(a, client, ids, now).status == a.status
  {
    hide PlainWord;
    if Releases(a, client, ids) {
      RoutesWritePlainWords(PaidUp);
      ClosedIsSound(ReleaseOne(a, client, ids, now), RELEASED);
    }
  }

  lemma RepairedKeeps(a: Account)
    requires Sound(a)
    ensures Sound(Repaired(a))
    ensures NeedsRepair(a) ==> !Leased(a)
  {
    RoutesWritePlainWords(PaidUp);
  }

  // ---- the fetch scan -------------------------------------------------------------------------------

  /** What a scan may do to a row it passes. */
  function Passed(a: Account, client: string, token: string, now: string): Account {
    if NeedsRepair(a) then Repaired(a)
    else if !ReservedFor(a, client) && Fetchable(a) then Reserve(a, Strip(client), token, now)
    else a
  }

  predicate Available(a: Account, client: string) {
    !NeedsRepair(a) && (ReservedFor(a, client) || Fetchable(a))
  }

  /** The scan from row `i`: it passes a stretch of rows in order, hands out exactly the
      available ones among them, and stops at the end or at the limit. */
  ghost predicate ScanResult(
      rows: seq<Account>, i: nat, given: seq<nat>, limit: nat, client: string, tokens: nat -> string, now: string,
      f: Fetched, end: nat)
  {
    && i <= end <= |rows| == |f.rows|
    && (forall j :: 0 <= j < |rows| ==>
      f.rows[j] == if i <= j < end then Passed(rows[j], client, tokens(j), now) else rows[j])
    && given <= f.given
    && (forall k :: |given| <= k < |f.given| ==> i <= f.given[k] < end && Available(rows[f.given[k]], client))
    && (forall k, l :: |given| <= k < l < |f.given| ==> f.given[k] < f.given[l])
    && (forall j :: i <= j < end && Available(rows[j], client) ==> j in f.given[|given|..])
    && (end < |rows| ==> |f.given| >= limit)
  }

  lemma ScanSkip(
      rows: seq<Account>, i: nat, given: seq<nat>, limit: nat, client: string, tokens: nat -> string, now: string,
      f: Fetched, end: nat)
    requires i < |rows| && !Available(rows[i], client)
    requires ScanResult(rows[i := Passed(rows[i], client, tokens(i), now)],
                        i + 1, given, limit, client, tokens, now, f, end)
    ensures ScanResult(rows, i, given, limit, client, tokens, now, f, end)
  {
    hide Passed, Available;
  }

  lemma ScanTake(
      rows: seq<Account>, i: nat, given: seq<nat>, limit: nat, client: string, tokens: nat -> string, now: string,
      f: Fetched, end: nat)
    requires i < |rows| && Available(rows[i], client)
    requires ScanResult(rows[i := Passed(rows[i], client, tokens(i), now)],
                        i + 1, given + [i], limit, client, tokens, now, f, end)
    ensures ScanResult(rows, i, given, limit, client, tokens, now, f, end)
  {
    hide Passed, Available;
    var n := |given|;
    var rows' := rows[i := Passed(rows[i], client, tokens(i), now)];
    assert f.given[n] == (given + [i])[n] == i;
    assert f.given[n..] == [i] + f.given[n + 1..];
    assert |given + [i]| == n + 1;
    forall j | i <= j < end && Available(rows[j], client) ensures j in f.given[n..] {
      if j != i {
        assert rows'[j] == rows[j];
        assert j in f.given[n + 1..];
      }
    }
  }

  lemma ScanStop(
      rows: seq<Account>, i: nat, given: seq<nat>, limit: nat, client: string, tokens: nat -> string, now: string)
    requires i < |rows| && Available(rows[i], client) && |given| + 1 >= limit
    ensures ScanResult(rows, i, given, limit, client, tokens, now,
                       Fetched(rows[i := Passed(rows[i], client, tokens(i), now)], given + [i]), i + 1)
  {
    hide Passed, Available;
  }

  /** One row of the scan, in terms of what it may do to a row it passes. */
  lemma ScanStep(
      rows: seq<Account>, i: nat, given: seq<nat>, limit: nat, client: string, tokens: nat -> string, now: string)
    requires i < |rows|
    ensures var rows' := rows[i := Passed(rows[i], client, tokens(i), now)];
            FetchFrom(rows, i, given, limit, client, tokens, now) ==
              if !Available(rows[i], client) then FetchFrom(rows', i + 1, given, limit, client, tokens, now)
              else if |given| + 1 >= limit then Fetched(rows', given + [i])
              else FetchFrom(rows', i + 1, given + [i], limit, client, tokens, now)
  {
    hide Reserve, Repaired, ReservedFor, Fetchable, NeedsRepair;
    var rows' := rows[i := Passed(rows[i], client, tokens(i), now)];
    assert Passed(rows[i], client, tokens(i), now) == rows[i] ==> rows' == rows;
  }

  lemma {:induction false} ScanFrom(
      rows: seq<Account>, i: nat, given: seq<nat>, limit: nat, client: string, tokens: nat -> string, now: string)
    returns (end: nat)
    requires i <= |rows|
    ensures ScanResult(rows, i, given, limit, client, tokens, now,
      FetchFrom(rows, i, given, limit, client, tokens, now), end)
    ensures |FetchFrom(rows, i, given, limit, client, tokens, now).given|
      <= if |given| >= limit then |given| + 1 else limit
    decreases |rows| - i
  {
    hide Passed, Available, ScanResult, FetchFrom;
    if i == |rows| {
      end := i;
      ScanEnds(rows, given, limit, client, tokens, now);
      ScanNothing(rows, given, limit, client, tokens, now);
    } else {
      var rows' := rows[i := Passed(rows[i], client, tokens(i), now)];
      ScanStep(rows, i, given, limit, client, tokens, now);
      if !Available(rows[i], client) {
        end := ScanFrom(rows', i + 1, given, limit, client, tokens, now);
        ScanSkip(rows, i, given, limit, client, tokens, now,
          FetchFrom(rows', i + 1, given, limit, client, tokens, now), end);
      } else if |given| + 1 >= limit {
        end := i + 1;
        ScanStop(rows, i, given, limit, client, tokens, now);
      } else {
        end := ScanFrom(rows', i + 1, given + [i], limit, client, tokens, now);
        ScanTake(rows, i, given, limit, client, tokens, now,
          FetchFrom(rows', i + 1, given + [i], limit, client, tokens, now), end);
      }
    }
  }

  lemma ScanNothing(rows: seq<Account>, given: seq<nat>, limit: nat, client: string, tokens: nat -> string, now: string)
    ensures ScanResult(rows, |rows|, given, limit, client, tokens, now, Fetched(rows, given), |rows|)
  {
  }

  lemma ScanEnds(rows: seq<Account>, given: seq<nat>, limit: nat, client: string, tokens: nat -> string, now: string)
    ensures FetchFrom(rows, |rows|, given, limit, client, tokens, now) == Fetched(rows, given)
  {
  }
}
