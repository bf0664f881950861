/** Mailbox clients sharing one allocator (core/base_mailbox.py, `CFWorkerMailbox`).

    A client reserves a slot, asks a remote service for an address, and files the slot under
    that address until the account is finalised or released.  Other clients run between the
    reservation and the answer, so those are two events. */
module MailboxLedger {
  import opened Basics
  import opened Text
  import opened SubdomainRows
  import Labels

  /** Where an unresolved slot is kept: in a call under way, or in a client's map. */
  datatype Holder = InCall(client: nat) | Mapped(client: nat, email: string)

  /** A granted slot: the row's id and the serial number of the reservation. */
  datatype Slot = Slot(id: int, serial: nat)

  /** The remote service's answer, decoded. */
  datatype Answer =
    | ServiceError                // the request raised
    | NotAnObject                 // JSON, but no object: the lookup of "email" raises
    | Incomplete                  // email or token missing or empty
    | BadAddress                  // a truthy email that is no text: trimming it raises
    | Address(email: string)

  datatype System = System(
    rows: seq<Row>,
    held: map<Holder, Slot>,
    nextSerial: nat,
    finalized: map<nat, int>, // serials that were finalised, with their rows
    released: map<nat, int>,  // serials that were released, with their rows
    lost: set<nat>,           // serials no longer held and never resolved
    lostAt: map<nat, int>     // the rows of the lost ones
    )

  function Start(): System { System([], map[], 0, map[], map[], {}, map[]) }

  /** Serials finalised or released. */
  function Resolved(s: System): set<nat> { s.finalized.Keys + s.released.Keys }

  function KeyOf(email: string): string { Lower(Strip(email)) }

  datatype Event =
    | Begin(client: nat, request: Request)
    | Answered(client: nat, answer: Answer)
    | FinalizeAccount(client: nat, email: string)
    | ReleaseAccount(client: nat, email: string)
    | ReleaseUsedSlot(id: int)

  predicate Enabled(s: System, e: Event) {
    match e
    case Begin(c, _) => InCall(c) !in s.held
    case Answered(c, _) => InCall(c) in s.held
    case _ => true
  }

  /** Give the slot kept at `h` back to the allocator, one way or the other. */
  function Resolve(s: System, h: Holder, used: bool): System
    requires h in s.held
  {
    var slot := s.held[h];
    s.(rows := if used then Finalize(s.rows, slot.id) else Release(s.rows, slot.id),
       held := s.held - {h},
       finalized := if used then s.finalized[slot.serial := slot.id] else s.finalized,
       released := if used then s.released else s.released[slot.serial := slot.id])
  }

  function Lose(s: System, h: Holder): System
    requires h in s.held
  {
    var slot := s.held[h];
    s.(held := s.held - {h}, lost := s.lost + {slot.serial}, lostAt := s.lostAt[slot.serial := slot.id])
  }

  function OnBegin(s: System, c: nat, q: Request): System {
    var (rows', i) := Reserve(s.rows, q);
    s.(rows := rows', held := s.held[InCall(c) := Slot(i + 1, s.nextSerial)], nextSerial := s.nextSerial + 1)
  }

  /** Filing under an address overwrites what the map held there. */
  function OnAddress(s: System, c: nat, key: string): System
    requires InCall(c) in s.held
  {
    var slot := s.held[InCall(c)];
    var s1 := if Mapped(c, key) in s.held then Lose(s, Mapped(c, key)) else s;
    s1.(held := (s1.held - {InCall(c)})[Mapped(c, key) := slot])
  }

  function OnAnswer(s: System, c: nat, a: Answer): System
    requires InCall(c) in s.held
  {
    match a
    case ServiceError => Resolve(s, InCall(c), false)
    case Incomplete => Resolve(s, InCall(c), false)
    case NotAnObject => Lose(s, InCall(c))
    case BadAddress => Lose(s, InCall(c))
    case Address(email) => OnAddress(s, c, KeyOf(email))
  }

  function Apply(s: System, e: Event): System
    requires Enabled(s, e)
  {
    match e
    case Begin(c, q) => OnBegin(s, c, q)
    case Answered(c, a) => OnAnswer(s, c, a)
    case FinalizeAccount(c, email) =>
      if Mapped(c, KeyOf(email)) in s.held then Resolve(s, Mapped(c, KeyOf(email)), true) else s
    case ReleaseAccount(c, email) =>
      if Mapped(c, KeyOf(email)) in s.held then Resolve(s, Mapped(c, KeyOf(email)), false) else s
    case ReleaseUsedSlot(id) => s.(rows := ReleaseUsed(s.rows, id))
  }

  ghost predicate Legal(s: System, es: seq<Event>)
    decreases |es|
  {
    |es| == 0 || (Enabled(s, es[0]) && Legal(Apply(s, es[0]), es[1..]))
  }

  ghost function After(s: System, es: seq<Event>): System
    requires Legal(s, es)
    decreases |es|
  {
    if |es| == 0 then s else After(Apply(s, es[0]), es[1..])
  }

  // ---- the invariant -----------------------------------------------------------------------------

  function HeldAt(held: map<Holder, Slot>, id: int): set<Holder> {
    set h | h in held && held[h].id == id
  }

  function LostAt(lostAt: map<nat, int>, id: int): set<nat> {
    set n | n in lostAt && lostAt[n] == id
  }

  /** Row `i` counts exactly the slots held or lost there, and is not overfull. */
  ghost predicate RowAccounted(s: System, i: nat)
    requires i < |s.rows|
  {
    && s.rows[i].inflight == |HeldAt(s.held, i + 1)| + |LostAt(s.lostAt, i + 1)|
    && s.rows[i].used + s.rows[i].inflight <= Capacity(s.rows[i])
  }

  ghost predicate Serials(s: System) {
    && (forall h :: h in s.held ==> 0 < s.held[h].id <= |s.rows| && s.held[h].serial < s.nextSerial
                                    && s.held[h].serial !in Resolved(s) && s.held[h].serial !in s.lost)
    && (forall h, g :: h in s.held && g in s.held && s.held[h].serial == s.held[g].serial ==> h == g)
    && (forall n :: n in Resolved(s) ==> n < s.nextSerial && n !in s.lost)
    && s.finalized.Keys !! s.released.Keys
    && (forall n :: n in s.lost ==> n < s.nextSerial)
    && s.lostAt.Keys == s.lost
    && (forall n :: n in s.lostAt ==> 0 < s.lostAt[n] <= |s.rows|)
  }

  ghost predicate Inv(s: System) {
    Serials(s) && forall i :: 0 <= i < |s.rows| ==> RowAccounted(s, i)
  }

  lemma HeldAfterRemove(held: map<Holder, Slot>, h: Holder, id: int)
    requires h in held
    ensures |HeldAt(held - {h}, id)| == |HeldAt(held, id)| - if held[h].id == id then 1 else 0
  {
    if held[h].id == id {
      assert HeldAt(held, id) == HeldAt(held - {h}, id) + {h};
    } else {
      assert HeldAt(held, id) == HeldAt(held - {h}, id);
    }
  }

  lemma HeldAfterAdd(held: map<Holder, Slot>, h: Holder, slot: Slot, id: int)
    requires h !in held
    ensures |HeldAt(held[h := slot], id)| == |HeldAt(held, id)| + if slot.id == id then 1 else 0
  {
    if slot.id == id {
      assert HeldAt(held[h := slot], id) == HeldAt(held, id) + {h};
    } else {
      assert HeldAt(held[h := slot], id) == HeldAt(held, id);
    }
  }

  lemma LostAfterAdd(lostAt: map<nat, int>, n: nat, at: int, id: int)
    requires n !in lostAt
    ensures |LostAt(lostAt[n := at], id)| == |LostAt(lostAt, id)| + if at == id then 1 else 0
  {
    if at == id {
      assert LostAt(lostAt[n := at], id) == LostAt(lostAt, id) + {n};
    } else {
      assert LostAt(lostAt[n := at], id) == LostAt(lostAt, id);
    }
  }

  /** A held slot is counted on its row, so giving it back never meets the clamp at zero. */
  lemma HeldMeansInflight(s: System, h: Holder)
    requires Inv(s) && h in s.held
    ensures s.rows[s.held[h].id - 1].inflight > 0
  {
    var i := s.held[h].id - 1;
    assert RowAccounted(s, i);
    HeldAfterRemove(s.held, h, i + 1);
  }

  lemma ResolveKeeps(s: System, h: Holder, used: bool)
    requires Inv(s) && h in s.held
    ensures Inv(Resolve(s, h, used))
  {
    var s' := Resolve(s, h, used);
    HeldMeansInflight(s, h);
    forall i | 0 <= i < |s'.rows| ensures RowAccounted(s', i) {
      assert RowAccounted(s, i);
      HeldAfterRemove(s.held, h, i + 1);
    }
  }

  lemma LoseKeeps(s: System, h: Holder)
    requires Inv(s) && h in s.held
    ensures Inv(Lose(s, h))
  {
    var s' := Lose(s, h);
    forall i | 0 <= i < |s'.rows| ensures RowAccounted(s', i) {
      assert RowAccounted(s, i);
      HeldAfterRemove(s.held, h, i + 1);
      LostAfterAdd(s.lostAt, s.held[h].serial, s.held[h].id, i + 1);
    }
  }

  lemma NothingAtNewRow(s: System, id: int)
    requires Serials(s) && id > |s.rows|
    ensures HeldAt(s.held, id) == {} && LostAt(s.lostAt, id) == {}
  {
  }

  lemma BeginKeepsRows(s: System, c: nat, q: Request)
    requires Inv(s) && InCall(c) !in s.held && q.limit >= 1
    ensures var s' := OnBegin(s, c, q); forall i :: 0 <= i < |s'.rows| ==> RowAccounted(s', i)
  {
    var s' := OnBegin(s, c, q);
    var slot := s'.held[InCall(c)];
    forall i | 0 <= i < |s'.rows| ensures RowAccounted(s', i) {
      if i < |s.rows| {
        assert RowAccounted(s, i);
      } else {
        NothingAtNewRow(s, i + 1);
      }
      HeldAfterAdd(s.held, InCall(c), slot, i + 1);
    }
  }

  lemma BeginKeepsSerials(s: System, c: nat, q: Request)
    requires Serials(s) && InCall(c) !in s.held
    ensures Serials(OnBegin(s, c, q))
  {
  }

  /** Moving a slot from the call to the map. */
  lemma FileKeeps(s: System, c: nat, key: string)
    requires Inv(s) && InCall(c) in s.held && Mapped(c, key) !in s.held
    ensures Inv(s.(held := (s.held - {InCall(c)})[Mapped(c, key) := s.held[InCall(c)]]))
  {
    var slot, rest := s.held[InCall(c)], s.held - {InCall(c)};
    var s' := s.(held := rest[Mapped(c, key) := slot]);
    forall i | 0 <= i < |s'.rows| ensures RowAccounted(s', i) {
      assert RowAccounted(s, i);
      HeldAfterRemove(s.held, InCall(c), i + 1);
      HeldAfterAdd(rest, Mapped(c, key), slot, i + 1);
    }
  }

  lemma AddressKeeps(s: System, c: nat, key: string)
    requires Inv(s) && InCall(c) in s.held
    ensures Inv(OnAddress(s, c, key))
  {
    if Mapped(c, key) in s.held {
      LoseKeeps(s, Mapped(c, key));
      FileKeeps(Lose(s, Mapped(c, key)), c, key);
    } else {
      FileKeeps(s, c, key);
    }
  }

  lemma UsedReleaseKeeps(s: System, id: int)
    requires Inv(s)
    ensures Inv(s.(rows := ReleaseUsed(s.rows, id)))
  {
    var s' := s.(rows := ReleaseUsed(s.rows, id));
    forall i | 0 <= i < |s'.rows| ensures RowAccounted(s', i) {
      assert RowAccounted(s, i);
    }
  }

  /** Resolving and losing take one serial each out of the held ones. */
  lemma ResolveBooks(s: System, h: Holder, used: bool)
    requires Serials(s) && h in s.held
    ensures var s', n := Resolve(s, h, used), s.held[h].serial;
      n !in Resolved(s) && Resolved(s') == Resolved(s) + {n} && s'.lost == s.lost
  {
  }

  lemma LoseBooks(s: System, h: Holder)
    requires Serials(s) && h in s.held
    ensures var s', n := Lose(s, h), s.held[h].serial;
      n !in s.lost && s'.lost == s.lost + {n} && Resolved(s') == Resolved(s)
  {
  }

  lemma AddressBooks(s: System, c: nat, key: string)
    requires Serials(s) && InCall(c) in s.held
    ensures var s', h := OnAddress(s, c, key), Mapped(c, key);
      Resolved(s') == Resolved(s) && s.lost <= s'.lost && |s'.lost| == |s.lost| + if h in s.held then 1 else 0
  {
    if Mapped(c, key) in s.held {
      LoseBooks(s, Mapped(c, key));
    }
  }

  /** What one event resolves and loses. */
  lemma StepBooks(s: System, e: Event)
    requires Serials(s) && Enabled(s, e)
    ensures var s' := Apply(s, e);
      && s.lost <= s'.lost && |s'.lost| == |s.lost| + (if LosesSlot(s, e) then 1 else 0)
      && (Resolved(s') == Resolved(s)
          || exists h :: h in s.held && s.held[h].serial !in Resolved(s)
                         && Resolved(s') == Resolved(s) + {s.held[h].serial})
  {
    hide Resolve, Lose, OnAddress, Resolved, Serials, KeyOf, Reserve, ReleaseUsed;
    match e
    case Answered(c, a) =>
      match a {
        case Address(email) => AddressBooks(s, c, KeyOf(email));
        case NotAnObject => LoseBooks(s, InCall(c));
        case BadAddress => LoseBooks(s, InCall(c));
        case _ => ResolveBooks(s, InCall(c), false);
      }
    case FinalizeAccount(c, email) =>
      if Mapped(c, KeyOf(email)) in s.held { ResolveBooks(s, Mapped(c, KeyOf(email)), true); }
    case ReleaseAccount(c, email) =>
      if Mapped(c, KeyOf(email)) in s.held { ResolveBooks(s, Mapped(c, KeyOf(email)), false); }
    case ReleaseUsedSlot(id) => SameResolved(s, s.(rows := ReleaseUsed(s.rows, id)));
    case Begin(c, q) => SameResolved(s, OnBegin(s, c, q));
  }

  lemma SameResolved(s: System, s': System)
    requires s.finalized == s'.finalized && s.released == s'.released
    ensures Resolved(s) == Resolved(s')
  {
  }

  ghost predicate PositiveLimit(e: Event) { e.Begin? ==> e.request.limit >= 1 }

  lemma StepKeeps(s: System, e: Event)
    requires Inv(s) && Enabled(s, e) && PositiveLimit(e)
    ensures Inv(Apply(s, e))
  {
    hide Inv, KeyOf, OnBegin, OnAddress, Resolve, Lose, ReleaseUsed;
    match e
    case Begin(c, q) =>
      InvParts(s);
      BeginKeepsRows(s, c, q);
      BeginKeepsSerials(s, c, q);
      InvWhole(OnBegin(s, c, q));
    case Answered(c, a) =>
      match a {
        case ServiceError => ResolveKeeps(s, InCall(c), false);
        case Incomplete => ResolveKeeps(s, InCall(c), false);
        case NotAnObject => LoseKeeps(s, InCall(c));
        case BadAddress => LoseKeeps(s, InCall(c));
        case Address(email) => AddressKeeps(s, c, KeyOf(email));
      }
    case FinalizeAccount(c, email) =>
      if Mapped(c, KeyOf(email)) in s.held { ResolveKeeps(s, Mapped(c, KeyOf(email)), true); }
    case ReleaseAccount(c, email) =>
      if Mapped(c, KeyOf(email)) in s.held { ResolveKeeps(s, Mapped(c, KeyOf(email)), false); }
    case ReleaseUsedSlot(id) => UsedReleaseKeeps(s, id);
  }

  lemma InvParts(s: System)
    requires Inv(s)
    ensures Serials(s)
  {
  }

  lemma InvWhole(s: System)
    requires Serials(s) && forall i :: 0 <= i < |s.rows| ==> RowAccounted(s, i)
    ensures Inv(s)
  {
  }

  lemma {:induction false} RunKeeps(s: System, es: seq<Event>)
    requires Inv(s) && Legal(s, es) && forall k :: 0 <= k < |es| ==> PositiveLimit(es[k])
    ensures Inv(After(s, es))
    decreases |es|
  {
    if |es| > 0 {
      StepKeeps(s, es[0]);
      RunKeeps(Apply(s, es[0]), es[1..]);
    }
  }

  ghost predicate Reaches(es: seq<Event>, s: System) {
    Legal(Start(), es) && s == After(Start(), es) && forall k :: 0 <= k < |es| ==> PositiveLimit(es[k])
  }

  // ---- the theorems ---------------------------------------------------------------------------------

  /** In every run each row's inflight count is the number of slots held in calls and maps
      plus the slots lost there, and used plus inflight stays within capacity. */
  lemma InflightIsHeldPlusLost(es: seq<Event>, s: System, i: nat)
    requires Reaches(es, s) && i < |s.rows|
    ensures s.rows[i].inflight == |HeldAt(s.held, i + 1)| + |LostAt(s.lostAt, i + 1)|
    ensures s.rows[i].used + s.rows[i].inflight <= Capacity(s.rows[i])
  {
    RunKeeps(Start(), es);
    assert RowAccounted(s, i);
  }

  /** What makes a slot disappear from the books: an answer that is no object, an address
      that is no text, or an address the client has already filed a slot under. */
  predicate LosesSlot(s: System, e: Event) {
    e.Answered? &&
    match e.answer
    case NotAnObject => true
    case BadAddress => true
    case Address(email) => Mapped(e.client, KeyOf(email)) in s.held
    case _ => false
  }

  lemma LossIsExact(s: System, e: Event)
    requires Inv(s) && Enabled(s, e)
    ensures |Apply(s, e).lost| == |s.lost| + if LosesSlot(s, e) then 1 else 0
    ensures s.lost <= Apply(s, e).lost
  {
    StepBooks(s, e);
    hide LosesSlot, Apply;
  }

  ghost predicate NeverLoses(s: System, es: seq<Event>)
    requires Legal(s, es)
    decreases |es|
  {
    |es| == 0 || (!LosesSlot(s, es[0]) && NeverLoses(Apply(s, es[0]), es[1..]))
  }

  lemma {:induction false} LossOverRun(s: System, es: seq<Event>)
    requires Inv(s) && Legal(s, es) && forall k :: 0 <= k < |es| ==> PositiveLimit(es[k])
    ensures |After(s, es).lost| >= |s.lost|
    ensures |After(s, es).lost| == |s.lost| <==> NeverLoses(s, es)
    decreases |es|
  {
    if |es| > 0 {
      StepKeeps(s, es[0]);
      LossIsExact(s, es[0]);
      LossOverRun(Apply(s, es[0]), es[1..]);
    }
  }

  /** The promise "every inflight slot is in a call or a client map" holds exactly for the
      runs in which no answer is malformed and no address is filed twice. */
  lemma EveryInflightIsHeldExactly(es: seq<Event>, s: System)
    requires Reaches(es, s)
    ensures (forall i :: 0 <= i < |s.rows| ==> s.rows[i].inflight == |HeldAt(s.held, i + 1)|) <==>
      NeverLoses(Start(), es)
  {
    StartInv();
    RunKeeps(Start(), es);
    LossOverRun(Start(), es);
    if s.lost == {} {
      forall i | 0 <= i < |s.rows| ensures s.rows[i].inflight == |HeldAt(s.held, i + 1)| {
        assert RowAccounted(s, i);
        assert LostAt(s.lostAt, i + 1) == {};
      }
    } else {
      var n :| n in s.lost;
      var i := s.lostAt[n] - 1;
      assert RowAccounted(s, i);
      assert n in LostAt(s.lostAt, i + 1);
    }
  }

  /** The smallest failing run: one reservation, one answer that is JSON but no object. The
      slot is in nobody's books and stays inflight for ever. */
  lemma MalformedAnswerLeaks(q: Request)
    requires q.limit >= 1
    ensures var es := [Begin(0, q), Answered(0, NotAnObject)];
            Legal(Start(), es) && After(Start(), es).held == map[]
            && |After(Start(), es).rows| == 1 && After(Start(), es).rows[0].inflight == 1
  {
    var begin, answer := Begin(0, q), Answered(0, NotAnObject);
    FirstReservation(q);
    hide Reserve;
    var s1 := OnBegin(Start(), 0, q);
    assert s1.held == map[InCall(0) := Slot(1, 0)];
    assert Apply(s1, answer).held == map[] && Apply(s1, answer).rows == s1.rows;
    AfterTwo(Start(), begin, answer);
  }

  lemma FirstReservation(q: Request)
    ensures Reserve([], q).1 == 0 && |Reserve([], q).0| == 1 && Reserve([], q).0[0].inflight == 1
  {
    hide Labels.MakeLabel;
    assert FirstFit([], q.root, 0) == 0;
  }

  lemma AfterTwo(s: System, a: Event, b: Event)
    requires Enabled(s, a) && Enabled(Apply(s, a), b)
    ensures Legal(s, [a, b]) && After(s, [a, b]) == Apply(Apply(s, a), b)
  {
    hide Apply, Enabled;
    assert [b][1..] == [] && [a, b][1..] == [b];
    assert Legal(Apply(s, a), [b]) && After(Apply(s, a), [b]) == Apply(Apply(s, a), b);
  }

  lemma StartInv()
    ensures Inv(Start())
  {
  }

  /** A reservation is resolved at most once: whatever an event resolves or loses was held
      until then, is held no longer, and never comes back under the same serial. */
  lemma ResolvedAtMostOnce(es: seq<Event>, s: System, e: Event)
    requires Reaches(es, s) && Enabled(s, e)
    ensures Resolved(s) <= Resolved(Apply(s, e))
    ensures forall n :: n in Resolved(Apply(s, e)) - Resolved(s) ==> exists h :: h in s.held && s.held[h].serial == n
    ensures forall h :: h in s.held ==> s.held[h].serial !in Resolved(s) && s.held[h].serial !in s.lost
    ensures |Resolved(Apply(s, e))| <= |Resolved(s)| + 1
  {
    StartInv();
    RunKeeps(Start(), es);
    hide Reaches, Finalize, Release, ReleaseUsed, Reserve, Strip, Lower, RowAccounted, OnBegin;
    StepResolvesOnce(s, e);
  }

  lemma StepResolvesOnce(s: System, e: Event)
    requires Serials(s) && Enabled(s, e)
    ensures Resolved(s) <= Resolved(Apply(s, e)) && |Resolved(Apply(s, e))| <= |Resolved(s)| + 1
    ensures forall n :: n in Resolved(Apply(s, e)) - Resolved(s) ==> exists h :: h in s.held && s.held[h].serial == n
  {
    StepBooks(s, e);
    hide Apply, Resolved, LosesSlot;
  }

  /** The allocator is only asked to finalise or release slots that are outstanding: the
      client ledger supplies exactly the discipline first fit relies on. */
  function OpOf(s: System, e: Event): Option<Op>
    requires Enabled(s, e)
  {
    match e
    case Begin(_, _) => Some(OpReserve)
    case Answered(c, a) => if a.ServiceError? || a.Incomplete? then Some(OpRelease(s.held[InCall(c)].id)) else None
    case FinalizeAccount(c, email) =>
      if Mapped(c, KeyOf(email)) in s.held then Some(OpFinalize(s.held[Mapped(c, KeyOf(email))].id)) else None
    case ReleaseAccount(c, email) =>
      if Mapped(c, KeyOf(email)) in s.held then Some(OpRelease(s.held[Mapped(c, KeyOf(email))].id)) else None
    case ReleaseUsedSlot(id) => Some(OpReleaseUsed(id))
  }

  lemma ClientsAreDisciplined(s: System, e: Event, q: Request)
    requires Inv(s) && Enabled(s, e) && (e.Begin? ==> e.request == q)
    ensures OpOf(s, e).Some? ==>
      Allowed(s.rows, OpOf(s, e).value) && Apply(s, e).rows == Perform(s.rows, q, OpOf(s, e).value)
    ensures OpOf(s, e).None? ==> Apply(s, e).rows == s.rows
  {
    match e
    case Answered(c, a) => HeldMeansInflight(s, InCall(c));
    case FinalizeAccount(c, email) =>
      if Mapped(c, KeyOf(email)) in s.held { HeldMeansInflight(s, Mapped(c, KeyOf(email))); }
    case ReleaseAccount(c, email) =>
      if Mapped(c, KeyOf(email)) in s.held { HeldMeansInflight(s, Mapped(c, KeyOf(email))); }
    case _ =>
  }

  /** The highest load that one root carries during a run. */
  ghost function PeakLoad(s: System, root: string, es: seq<Event>, peak: nat): nat
    requires Legal(s, es)
    decreases |es|
  {
    if |es| == 0 then peak else PeakLoad(Apply(s, es[0]), root, es[1..], Max(peak, LoadOf(Apply(s, es[0]).rows, root)))
  }

  /** Requests for `root` have one limit; what other roots are asked for is arbitrary. */
  ghost predicate FixedRequests(es: seq<Event>, root: string, limit: int) {
    forall k :: 0 <= k < |es| && es[k].Begin? ==> FixedRequest(es[k].request, root, limit)
  }

  predicate FixedRequest(q: Request, root: string, limit: int) { q.limit >= 1 && (q.root == root ==> q.limit == limit) }

  lemma StepStaysTightForClients(s: System, e: Event, peak: nat, root: string, limit: int)
    requires Inv(s) && Enabled(s, e) && Tight(Track(s.rows, peak), root, limit)
    requires e.Begin? ==> FixedRequest(e.request, root, limit)
    ensures Tight(Track(Apply(s, e).rows, Max(peak, LoadOf(Apply(s, e).rows, root))), root, limit)
  {
    hide Inv, Tight, LoadOf, Apply, Perform, Allowed;
    var q := if e.Begin? then e.request else Request(root, "acc", Labels.Counter, limit);
    ClientsAreDisciplined(s, e, q);
    if OpOf(s, e).Some? {
      StepStaysTight(Track(s.rows, peak), root, limit, q, OpOf(s, e).value);
    } else {
      NothingStaysTight(Track(s.rows, peak), root, limit);
    }
  }

  lemma {:induction false} ClientRunsStayTight(s: System, es: seq<Event>, peak: nat, root: string, limit: int)
    requires Inv(s) && Legal(s, es) && FixedRequests(es, root, limit) && limit >= 1
    requires Tight(Track(s.rows, peak), root, limit)
    ensures Tight(Track(After(s, es).rows, PeakLoad(s, root, es, peak)), root, limit)
    decreases |es|
  {
    hide Inv, Tight, LoadOf, Apply;
    if |es| > 0 {
      StepKeeps(s, es[0]);
      StepStaysTightForClients(s, es[0], peak, root, limit);
      ClientRunsStayTight(Apply(s, es[0]), es[1..], Max(peak, LoadOf(Apply(s, es[0]).rows, root)), root, limit);
    }
  }

  /** Allocator and clients together: over every interleaving of calls, answers, finalisations
      and releases, for any number of roots, the number of rows of a root with one limit is that
      root's peak load divided by the limit, rounded up. */
  lemma ClientRunsOpenNoRowTooMany(es: seq<Event>, s: System, root: string, limit: int)
    requires Legal(Start(), es) && s == After(Start(), es) && FixedRequests(es, root, limit) && limit >= 1
    ensures |Of(s.rows, root)| == (PeakLoad(Start(), root, es, 0) + limit - 1) / limit
  {
    hide Inv, Tight, Legal, After, PeakLoad, FixedRequests;
    StartInv();
    NoRowsAreTight(root, limit);
    ClientRunsStayTight(Start(), es, 0, root, limit);
    TightCeiling(Track(s.rows, PeakLoad(Start(), root, es, 0)), root, limit);
  }

  // ---- one client, updated in place --------------------------------------------------------------------

  class Mailbox {
    const allocator: Allocator
    var reservations: map<string, int>
    var pending: Option<int>

    constructor (allocator: Allocator)
      ensures this.allocator == allocator && reservations == map[] && pending == None
    {
      this.allocator := allocator;
      reservations, pending := map[], None;
    }

    /** `get_email` up to the remote call, in forced-subdomain mode. */
    method BeginGetEmail(root: string, prefix: string, strategy: Labels.Strategy, limit: int) returns (ok: bool)
      requires pending.None?
      modifies this`pending, allocator
      ensures ok <==> Labels.NormalizeDomain(root) != ""
      ensures !ok ==> allocator.rows == old(allocator.rows) && pending == None
      ensures ok ==>
                var q := Request(Labels.NormalizeDomain(root), Labels.LabelPrefix(prefix), strategy,
                                 if limit > 1 then limit else 1);
                var (rows', i) := Reserve(old(allocator.rows), q);
                allocator.rows == rows' && pending == Some(i + 1)
    {
      hide Reserve, Labels.NormalizeDomain, Labels.LabelPrefix;
      var granted := allocator.ReserveSubdomain(root, prefix, strategy, limit);
      ok := granted.Some?;
      if ok {
        pending := Some(granted.value.id);
      }
    }

    /** `get_email` from the remote answer on; `ok` when an account is returned. */
    method CompleteGetEmail(answer: Answer) returns (ok: bool)
      requires pending.Some?
      modifies this, allocator
      ensures pending == None
      ensures ok <==> answer.Address?
      ensures reservations
        == (if answer.Address? then old(reservations)[KeyOf(answer.email) := old(pending).value] else old(reservations))
      ensures allocator.rows
        == (if answer.ServiceError? || answer.Incomplete? then Release(old(allocator.rows), old(pending).value)
            else old(allocator.rows))
    {
      var slot := pending.value;
      pending := None;
      match answer {
        case ServiceError => allocator.ReleaseReservation(slot); return false;
        case Incomplete => allocator.ReleaseReservation(slot); return false;
        case NotAnObject => return false;
        case BadAddress => return false;
        case Address(email) =>
          reservations := reservations[KeyOf(email) := slot];
          return true;
      }
    }

    method FinalizeAccount(email: string)
      modifies this`reservations, allocator
      ensures reservations == old(reservations) - {KeyOf(email)}
      ensures allocator.rows == (if KeyOf(email) in old(reservations)
                                 then Finalize(old(allocator.rows), old(reservations)[KeyOf(email)])
                                 else old(allocator.rows))
    {
      var key := KeyOf(email);
      if key in reservations {
        var id := reservations[key];
        reservations := reservations - {key};
        allocator.FinalizeReservation(id);
      }
    }

    method ReleaseAccount(email: string)
      modifies this`reservations, allocator
      ensures reservations == old(reservations) - {KeyOf(email)}
      ensures allocator.rows == (if KeyOf(email) in old(reservations)
                                 then Release(old(allocator.rows), old(reservations)[KeyOf(email)])
                                 else old(allocator.rows))
    {
      var key := KeyOf(email);
      if key in reservations {
        var id := reservations[key];
        reservations := reservations - {key};
        allocator.ReleaseReservation(id);
      }
    }
  }
}
