/** What becomes of every reservation (core/base_mailbox.py, core/cfworker_subdomain_allocator.py):
    what a row's used count stands for, that no slot vanishes unnoticed, and under which spellings
    of its address a filed slot is found again. */
module MailboxBooks {
  import opened Basics
  import opened Text
  import opened SubdomainRows
  import opened MailboxLedger

  // ---- one reservation there and back ------------------------------------------------------------

  /** A reservation that is released leaves every row's counts as they were; a row it had to open
      stays, empty. */
  lemma ReserveThenRelease(rows: seq<Row>, q: Request)
    ensures var (taken, i) := Reserve(rows, q);
      var back := Release(taken, i + 1);
      && |back| == |taken| && |rows| <= |back| <= |rows| + 1 && i < |taken|
      && (forall j :: 0 <= j < |rows| ==> back[j] == rows[j])
      && (|rows| < |back| ==> back[|rows|].used == 0 && back[|rows|].inflight == 0)
  {
    hide Labels.MakeLabel, FirstFit;
  }

  /** A reservation that is finalised leaves its row with one more used slot and nothing more in
      flight; giving the used slot back restores the counts. */
  lemma ReserveThenFinalize(rows: seq<Row>, q: Request)
    ensures var (taken, i) := Reserve(rows, q);
      var kept := Finalize(taken, i + 1);
      var back := ReleaseUsed(kept, i + 1);
      && |kept| == |taken| == |back| && |rows| <= |back| <= |rows| + 1 && i < |taken|
      && (forall j :: 0 <= j < |rows| ==>
            kept[j] == (if j == i then rows[j].(used := rows[j].used + 1) else rows[j]) && back[j] == rows[j])
      && (|rows| < |back| ==>
            i == |rows| && kept[i].used == 1 && kept[i].inflight == 0 && back[i].used == 0 && back[i].inflight == 0)
  {
    hide Labels.MakeLabel, FirstFit;
  }

  // ---- the used count ----------------------------------------------------------------------------------

  /** The serials that are recorded for the row with this id. */
  function RecordedAt(m: map<nat, int>, id: int): set<nat> { set n | n in m && m[n] == id }

  lemma RecordedAfterAdd(m: map<nat, int>, n: nat, at: int, id: int)
    requires n !in m
    ensures |RecordedAt(m[n := at], id)| == |RecordedAt(m, id)| + if at == id then 1 else 0
  {
    if at == id {
      assert RecordedAt(m[n := at], id) == RecordedAt(m, id) + {n};
    } else {
      assert RecordedAt(m[n := at], id) == RecordedAt(m, id);
    }
  }

  /** The event gives a used slot of this row back. */
  predicate GivesBack(s: System, e: Event, id: int) {
    e.ReleaseUsedSlot? && e.id == id && 0 < id <= |s.rows| && s.rows[id - 1].used > 0
  }

  /** How many used slots of the row were given back in a run. */
  function GivenBack(s: System, es: seq<Event>, id: int): nat
    requires MailboxLedger.Legal(s, es)
    decreases |es|
  {
    if |es| == 0 then 0
    else (if GivesBack(s, es[0], id) then 1 else 0) + GivenBack(Apply(s, es[0]), es[1..], id)
  }

  function UsedAt(s: System, i: nat): nat { if i < |s.rows| then s.rows[i].used else 0 }

  ghost predicate InRange(s: System) { forall n :: n in s.finalized ==> 0 < s.finalized[n] <= |s.rows| }

  lemma ResolveUses(s: System, h: Holder, used: bool, i: nat)
    requires Serials(s) && h in s.held && InRange(s)
    ensures var s' := Resolve(s, h, used);
      && InRange(s') && |s'.rows| == |s.rows|
      && UsedAt(s', i) - UsedAt(s, i) == |RecordedAt(s'.finalized, i + 1)| - |RecordedAt(s.finalized, i + 1)|
  {
    var slot := s.held[h];
    if used {
      RecordedAfterAdd(s.finalized, slot.serial, slot.id, i + 1);
    }
  }

  lemma AddressUses(s: System, c: nat, key: string, i: nat)
    requires InCall(c) in s.held && InRange(s)
    ensures var s' := OnAddress(s, c, key);
      InRange(s') && UsedAt(s', i) == UsedAt(s, i) && s'.finalized == s.finalized
  {
  }

  lemma BeginUses(s: System, c: nat, q: Request, i: nat)
    requires InRange(s)
    ensures var s' := OnBegin(s, c, q);
      InRange(s') && UsedAt(s', i) == UsedAt(s, i) && s'.finalized == s.finalized
  {
    hide Labels.MakeLabel, FirstFit;
  }

  lemma StepUses(s: System, e: Event, i: nat)
    requires Serials(s) && Enabled(s, e) && InRange(s)
    ensures var s' := Apply(s, e);
      && InRange(s')
      && UsedAt(s', i) + (if GivesBack(s, e, i + 1) then 1 else 0) + |RecordedAt(s.finalized, i + 1)|
         == UsedAt(s, i) + |RecordedAt(s'.finalized, i + 1)|
  {
    hide Resolve, Serials, KeyOf, OnAddress, OnBegin, RecordedAt;
    match e
    case Begin(c, q) => BeginUses(s, c, q, i);
    case Answered(c, a) =>
      match a {
        case Address(email) => AddressUses(s, c, KeyOf(email), i);
        case NotAnObject =>
        case BadAddress =>
        case _ => ResolveUses(s, InCall(c), false, i);
      }
    case FinalizeAccount(c, email) =>
      if Mapped(c, KeyOf(email)) in s.held { ResolveUses(s, Mapped(c, KeyOf(email)), true, i); }
    case ReleaseAccount(c, email) =>
      if Mapped(c, KeyOf(email)) in s.held { ResolveUses(s, Mapped(c, KeyOf(email)), false, i); }
    case ReleaseUsedSlot(id) =>
  }

  lemma {:induction false} RunUses(s: System, es: seq<Event>, i: nat)
    requires Inv(s) && InRange(s) && MailboxLedger.Legal(s, es) && forall k :: 0 <= k < |es| ==> PositiveLimit(es[k])
    ensures UsedAt(After(s, es), i) + GivenBack(s, es, i + 1) + |RecordedAt(s.finalized, i + 1)|
         == UsedAt(s, i) + |RecordedAt(After(s, es).finalized, i + 1)|
    decreases |es|
  {
    hide Apply, Enabled, RecordedAt, InRange, UsedAt, GivesBack;
    if |es| > 0 {
      StepKeeps(s, es[0]);
      StepUses(s, es[0], i);
      hide Inv;
      RunUses(Apply(s, es[0]), es[1..], i);
    }
  }

  /** Over every interleaving of clients, a row's used count is the number of reservations that
      were finalised there, less the used slots that were given back; a reservation that was
      released, is held or was lost does not count. */
  lemma UsedIsFinalizedLessGivenBack(es: seq<Event>, s: System, i: nat)
    requires Reaches(es, s) && i < |s.rows|
    ensures s.rows[i].used + GivenBack(Start(), es, i + 1) == |RecordedAt(s.finalized, i + 1)|
  {
    StartInv();
    RunUses(Start(), es, i);
    assert RecordedAt(map[], i + 1) == {};
  }

  // ---- every reservation is somewhere ----------------------------------------------------------------------

  function Begun(es: seq<Event>): nat {
    if |es| == 0 then 0 else (if es[0].Begin? then 1 else 0) + Begun(es[1..])
  }

  function Places(s: System): nat { |s.held| + |s.finalized| + |s.released| + |s.lost| }

  lemma SizeAfterAdd<K, V>(m: map<K, V>, k: K, v: V)
    ensures |m[k := v]| == |m| + if k in m then 0 else 1
  {
    assert m[k := v].Keys == m.Keys + {k};
  }

  lemma SizeAfterRemove<K, V>(m: map<K, V>, k: K)
    requires k in m
    ensures |m - {k}| == |m| - 1
  {
    assert m.Keys == (m - {k}).Keys + {k};
  }

  lemma ResolvePlaces(s: System, h: Holder, used: bool)
    requires Serials(s) && h in s.held
    ensures Places(Resolve(s, h, used)) == Places(s)
  {
    var slot := s.held[h];
    SizeAfterRemove(s.held, h);
    SizeAfterAdd(s.finalized, slot.serial, slot.id);
    SizeAfterAdd(s.released, slot.serial, slot.id);
    hide Finalize, Release;
  }

  lemma LosePlaces(s: System, h: Holder)
    requires Serials(s) && h in s.held
    ensures Places(Lose(s, h)) == Places(s)
  {
    SizeAfterRemove(s.held, h);
  }

  /** Filing moves one entry. */
  lemma FilePlaces(s: System, c: nat, key: string)
    requires InCall(c) in s.held && Mapped(c, key) !in s.held
    ensures |(s.held - {InCall(c)})[Mapped(c, key) := s.held[InCall(c)]]| == |s.held|
  {
    SizeAfterRemove(s.held, InCall(c));
    SizeAfterAdd(s.held - {InCall(c)}, Mapped(c, key), s.held[InCall(c)]);
  }

  lemma AddressPlaces(s: System, c: nat, key: string)
    requires Serials(s) && InCall(c) in s.held
    ensures Places(OnAddress(s, c, key)) == Places(s)
  {
    hide Serials;
    if Mapped(c, key) in s.held {
      LosePlaces(s, Mapped(c, key));
      FilePlaces(Lose(s, Mapped(c, key)), c, key);
    } else {
      FilePlaces(s, c, key);
    }
  }

  lemma StepPlaces(s: System, e: Event)
    requires Serials(s) && Enabled(s, e)
    ensures var n := if e.Begin? then 1 else 0;
      Places(Apply(s, e)) == Places(s) + n && Apply(s, e).nextSerial == s.nextSerial + n
  {
    hide Resolve, Lose, Serials, KeyOf, OnAddress, Reserve, ReleaseUsed;
    match e
    case Begin(c, q) => SizeAfterAdd(s.held, InCall(c), OnBegin(s, c, q).held[InCall(c)]);
    case Answered(c, a) =>
      SerialsOnly(s, e);
      match a {
        case Address(email) => AddressPlaces(s, c, KeyOf(email));
        case NotAnObject => LosePlaces(s, InCall(c));
        case BadAddress => LosePlaces(s, InCall(c));
        case _ => ResolvePlaces(s, InCall(c), false);
      }
    case FinalizeAccount(c, email) =>
      SerialsOnly(s, e);
      if Mapped(c, KeyOf(email)) in s.held { ResolvePlaces(s, Mapped(c, KeyOf(email)), true); }
    case ReleaseAccount(c, email) =>
      SerialsOnly(s, e);
      if Mapped(c, KeyOf(email)) in s.held { ResolvePlaces(s, Mapped(c, KeyOf(email)), false); }
    case ReleaseUsedSlot(id) =>
  }

  lemma SerialsOnly(s: System, e: Event)
    requires Enabled(s, e) && !e.Begin?
    ensures Apply(s, e).nextSerial == s.nextSerial
  {
  }

  lemma {:induction false} RunPlaces(s: System, es: seq<Event>)
    requires Inv(s) && MailboxLedger.Legal(s, es) && forall k :: 0 <= k < |es| ==> PositiveLimit(es[k])
    ensures Places(After(s, es)) == Places(s) + Begun(es) && After(s, es).nextSerial == s.nextSerial + Begun(es)
    decreases |es|
  {
    hide Apply, Enabled, Places;
    if |es| > 0 {
      StepKeeps(s, es[0]);
      StepPlaces(s, es[0]);
      hide Inv;
      RunPlaces(Apply(s, es[0]), es[1..]);
    }
  }

  /** Conservation: every reservation of a run is held by a call or a client map, or finalised, or
      released, or lost - in exactly one of these ways. */
  lemma EveryReservationIsSomewhere(es: seq<Event>, s: System)
    requires Reaches(es, s)
    ensures |s.held| + |s.finalized| + |s.released| + |s.lost| == Begun(es)
    ensures forall h :: h in s.held ==>
      s.held[h].serial !in s.finalized && s.held[h].serial !in s.released && s.held[h].serial !in s.lost
    ensures s.finalized.Keys !! s.released.Keys && s.finalized.Keys !! s.lost && s.released.Keys !! s.lost
  {
    StartInv();
    RunPlaces(Start(), es);
    RunKeeps(Start(), es);
    hide RowAccounted;
  }

  // ---- spellings of an address ---------------------------------------------------------------------------------

  /** A slot filed under an address is found by finalising or releasing any spelling of it that
      differs in case and surrounding blanks only, and by no other. */
  lemma FiledIsFound(s: System, c: nat, email: string, other: string)
    requires InCall(c) in s.held && Serials(s)
    ensures var filed, n := Apply(s, Answered(c, Address(email))), s.held[InCall(c)].serial;
      var same := Lower(Strip(other)) == Lower(Strip(email));
      && (same ==> Apply(filed, FinalizeAccount(c, other)).finalized == filed.finalized[n := s.held[InCall(c)].id])
      && (same ==> Apply(filed, ReleaseAccount(c, other)).released == filed.released[n := s.held[InCall(c)].id])
      && var h := Mapped(c, Lower(Strip(email)));
         h in filed.held && filed.held[h].serial == n
         && (!same ==>
               h in Apply(filed, FinalizeAccount(c, other)).held && h in Apply(filed, ReleaseAccount(c, other)).held)
  {
    hide Lower, Strip, Finalize, Release;
  }
}
