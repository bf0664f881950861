/** The grok payment routes on a table updated in place (api/payment_bridge.py). */
module PaymentBridge {
  import opened Basics
  import opened Text
  import opened LeaseSpec

  class Bridge {
    var accounts: seq<Account>

    constructor (accounts: seq<Account>)
      ensures this.accounts == accounts
    {
      this.accounts := accounts;
    }

    method FetchPaymentAccounts(
        limit: nat, client: string, tokens: nat -> string, now: string) returns (given: seq<nat>)
      modifies this
      ensures Fetched(accounts, given) == Fetch(old(accounts), limit, client, tokens, now)
    {
      hide Reserve, Repaired, ReservedFor, Fetchable, NeedsRepair;
      given := [];
      var i := 0;
      while i < |accounts|
        invariant 0 <= i <= |accounts|
        invariant Fetch(old(accounts), limit, client, tokens, now)
          == FetchFrom(accounts, i, given, limit, client, tokens, now)
      {
        if NeedsRepair(accounts[i]) {
          accounts := accounts[i := Repaired(accounts[i])];
        } else if ReservedFor(accounts[i], client) {
          given := given + [i];
          if |given| >= limit {
            return;
          }
        } else if Fetchable(accounts[i]) {
          accounts := accounts[i := Reserve(accounts[i], Strip(client), tokens(i), now)];
          given := given + [i];
          if |given| >= limit {
            return;
          }
        }
        i := i + 1;
      }
    }

    /** False is the "client id required" error. */
    method ReleasePaymentAccounts(client: string, ids: set<string>, now: string) returns (ok: bool, released: seq<nat>)
      modifies this
      ensures accounts == Apply(old(accounts), ReleaseRoute(client, ids, now))
      ensures ok <==> Strip(client) != ""
      ensures forall i: nat :: i in released <==>
        ok && i < |old(accounts)| && Releases(old(accounts)[i], Strip(client), ids)
    {
      hide Releases, Clear, Trim, FetchFrom, Pay, Complete;
      released := [];
      ok := Strip(client) != "";
      if !ok {
        return;
      }
      var key := Strip(client);
      ghost var before := accounts;
      for i := 0 to |accounts|
        invariant |accounts| == |before|
        invariant forall j :: 0 <= j < i ==> accounts[j] == ReleaseOne(before[j], key, ids, now)
        invariant forall j :: i <= j < |before| ==> accounts[j] == before[j]
        invariant forall j: nat :: j in released <==> j < i && Releases(before[j], key, ids)
      {
        if Releases(accounts[i], key, ids) {
          accounts := accounts[i := Clear(accounts[i], RELEASED, "released by client " + key, now)];
          released := released + [i];
        }
      }
      assert accounts == ReleaseAll(before, key, ids, now);
    }

    method PaymentCallback(p: Payment, now: string) returns (reply: Reply)
      modifies this
      ensures (accounts, reply) == Pay(old(accounts), p, now)
    {
      hide Paying, PaymentVerb, Mismatched;
      var verb := PaymentVerb(p.status);
      if verb.None? || p.target == Nobody {
        return BadRequest;
      }
      var i := FindAccount(p.target);
      if i == |accounts| {
        return NotFound;
      }
      if Mismatched(accounts[i], p.reservationId) {
        return Conflict;
      }
      accounts := accounts[i := Paying(accounts[i], verb.value, p, now)];
      reply := Done;
    }

    method CompleteCallback(
        status: string, target: Target, client: string, completedAt: string, now: string) returns (reply: Reply)
      modifies this
      ensures (accounts, reply) == Complete(old(accounts), status, target, client, completedAt, now)
    {
      hide Completing, IsComplete;
      if !IsComplete(status) || target == Nobody {
        return BadRequest;
      }
      var i := FindAccount(target);
      if i == |accounts| {
        return NotFound;
      }
      if !Paid(accounts[i]) {
        return Conflict;
      }
      accounts := accounts[i := Completing(accounts[i], client, completedAt, now)];
      reply := Done;
    }

    /** `select(...).first()`. */
    method FindAccount(t: Target) returns (i: nat)
      ensures i == Position(accounts, t, 0)
    {
      i := 0;
      while i < |accounts| && !Selects(t, accounts[i])
        invariant i <= |accounts| && Position(accounts, t, 0) == Position(accounts, t, i)
      {
        i := i + 1;
      }
    }
  }
}
