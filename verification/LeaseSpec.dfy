/** Payment leases on accounts (api/payment_bridge.py, the grok routes).  Every route runs
    under one lock, so each is one event on the table of accounts; `now` is the time text a
    route writes, tokens are the reservation ids it draws. */
module LeaseSpec {
  import opened Basics
  import opened Text

  /** An account's life-cycle status. */
  datatype Status = Registered | Trial | Subscribed | Completed | Other(name: string)

  /** The bridge metadata: absent texts are empty, and the two keys that are popped are
      options; `notes` holds every key no route ever reads back. */
  datatype Meta = Meta(status: string, kind: string, clientId: string, reservationId: Option<string>,
    reservedAt: Option<string>,
                       notes: map<string, string>)

  function NoMeta(): Meta { Meta("", "", "", None, None, map[]) }

  /** An account row; the payment link lives in its own column and in the extra data. */
  datatype Account = Account(id: nat, email: string, status: Status, cashierUrl: string, extraUrl: string, meta: Meta)

  predicate Unpaid(a: Account) { a.status == Registered || a.status == Trial }

  predicate Paid(a: Account) { a.status == Subscribed || a.status == Completed }

  function Link(a: Account): string {
    Strip(if a.cashierUrl != "" then a.cashierUrl else a.extraUrl)
  }

  const RESERVED := "reserved"
  const SUCCESS := "success"
  const RELEASED := "released"
  const GROK_PAYMENT := "grok_payment"

  function BridgeStatus(a: Account): string { Lower(Strip(a.meta.status)) }

  // ---- rewriting the metadata --------------------------------------------------------------------

  function Or(text: string, fallback: string): string { if text == "" then fallback else text }

  function Put(m: map<string, string>, key: string, value: string): map<string, string> {
    if value == "" then m else m[key := value]
  }

  function PutAll(m: map<string, string>, fields: seq<(string, string)>): map<string, string> {
    if |fields| == 0 then m else Put(PutAll(m, fields[..|fields| - 1]), fields[|fields| - 1].0, fields[|fields| - 1].1)
  }

  /** `_set_bridge_state` with status "reserved"; an empty client id leaves the old one. */
  function Reserve(a: Account, client: string, token: string, now: string): Account {
    a.(meta := Meta(RESERVED, GROK_PAYMENT, Or(client, a.meta.clientId), Some(token), Some(now),
                    a.meta.notes["updated_at" := now]["note" := "fetched for grok payment"]))
  }

  /** `_clear_bridge_lock`. */
  function Clear(a: Account, status: string, note: string, now: string): Account {
    a.(meta := Meta(status, a.meta.kind, a.meta.clientId, None, None,
      Put(a.meta.notes["updated_at" := now], "note", note)))
  }

  /** `_annotate_bridge_meta`: empty values are skipped. */
  function Annotate(a: Account, client: string, fields: seq<(string, string)>, now: string): Account {
    a.(meta := a.meta.(clientId := Or(client, a.meta.clientId),
      notes := PutAll(a.meta.notes, fields)["updated_at" := now]))
  }

  function SetLink(a: Account, url: string): Account {
    a.(cashierUrl := Strip(url), extraUrl := Strip(url))
  }

  // ---- the predicates of the fetch route ---------------------------------------------------------

  predicate Fetchable(a: Account) {
    Unpaid(a) && Link(a) != "" && BridgeStatus(a) != RESERVED && BridgeStatus(a) != SUCCESS
  }

  predicate ReservedFor(a: Account, client: string) {
    Strip(client) != "" && Unpaid(a) && Link(a) != ""
    && BridgeStatus(a) == RESERVED && Strip(a.meta.kind) == GROK_PAYMENT
    && Strip(a.meta.clientId) == Strip(client)
  }

  predicate NeedsRepair(a: Account) { !Paid(a) && BridgeStatus(a) == SUCCESS }

  function Repaired(a: Account): Account {
    if NeedsRepair(a) then a.(status := Subscribed) else a
  }

  // ---- routes -------------------------------------------------------------------------------------

  datatype Fetched = Fetched(rows: seq<Account>, given: seq<nat>)

  /** The scan of the fetch route from row `i` on. */
  function FetchFrom(
      rows: seq<Account>, i: nat, given: seq<nat>, limit: nat, client: string, tokens: nat -> string,
      now: string): Fetched
    requires i <= |rows|
    decreases |rows| - i
  {
    if i == |rows| then Fetched(rows, given)
    else if NeedsRepair(rows[i]) then
      FetchFrom(rows[i := Repaired(rows[i])], i + 1, given, limit, client, tokens, now)
    else if ReservedFor(rows[i], client) then
      if |given| + 1 >= limit then Fetched(rows, given + [i])
      else FetchFrom(rows, i + 1, given + [i], limit, client, tokens, now)
    else if !Fetchable(rows[i]) then FetchFrom(rows, i + 1, given, limit, client, tokens, now)
    else
      var rows' := rows[i := Reserve(rows[i], Strip(client), tokens(i), now)];
      if |given| + 1 >= limit then Fetched(rows', given + [i])
      else FetchFrom(rows', i + 1, given + [i], limit, client, tokens, now)
  }

  function Fetch(rows: seq<Account>, limit: nat, client: string, tokens: nat -> string, now: string): Fetched {
    FetchFrom(rows, 0, [], limit, client, tokens, now)
  }

  function ReservationId(a: Account): string {
    if a.meta.reservationId.Some? then a.meta.reservationId.value else ""
  }

  predicate Releases(a: Account, client: string, ids: set<string>) {
    && a.meta.status == RESERVED
    && a.meta.kind == GROK_PAYMENT
    && Strip(a.meta.clientId) == client
    && (ids == {} || Strip(ReservationId(a)) in ids)
  }

  function ReleaseOne(a: Account, client: string, ids: set<string>, now: string): Account {
    if Releases(a, client, ids) then Clear(a, RELEASED, "released by client " + client, now) else a
  }

  function ReleaseAll(rows: seq<Account>, client: string, ids: set<string>, now: string): (r: seq<Account>)
    ensures |r| == |rows|
    ensures forall i :: 0 <= i < |rows| ==> r[i] == ReleaseOne(rows[i], client, ids, now)
  {
    seq(|rows|, i requires 0 <= i < |rows| => ReleaseOne(rows[i], client, ids, now))
  }

  datatype Target = ById(id: nat) | ByEmail(email: string) | Nobody

  predicate Selects(t: Target, a: Account) {
    match t
    case ById(id) => a.id == id
    case ByEmail(email) => a.email == email
    case Nobody => false
  }

  /** The first row the target selects, `|rows|` if there is none. */
  function Position(rows: seq<Account>, t: Target, from: nat): (i: nat)
    requires from <= |rows|
    ensures from <= i <= |rows| && (i < |rows| ==> Selects(t, rows[i]))
    ensures forall j :: from <= j < i ==> !Selects(t, rows[j])
    decreases |rows| - from
  {
    if from == |rows| || Selects(t, rows[from]) then from else Position(rows, t, from + 1)
  }

  /** The four meanings a payment callback can have. */
  datatype Verb = PaidUp | LinkExpired | FailedPay | Skipped

  function PaymentVerb(text: string): Option<Verb> {
    var s := Lower(Strip(text));
    if s == "paid" || s == "success" then Some(PaidUp)
    else if s == "failed" || s == "failure" then Some(FailedPay)
    else if s == "skipped" || s == "skip" then Some(Skipped)
    else if s == "link_expired" || s == "expired" || s == "invalid_link" then Some(LinkExpired)
    else None
  }

  function Word(v: Verb): string {
    match v
    case PaidUp => SUCCESS
    case LinkExpired => "link_expired"
    case FailedPay => "failed"
    case Skipped => "skipped"
  }

  /** What the link refresh would return: not attempted, failed, or a new link. */
  datatype Refresh = NotAttempted(why: string) | NoLink(error: string) | NewLink(url: string)

  datatype Payment = Payment(status: string, target: Target, reservationId: string, client: string, note: string,
                             reference: string, paidAt: string, clearUrl: bool, refreshWanted: bool, refresh: Refresh)

  datatype Reply = Done | BadRequest | NotFound | Conflict

  /** What an accepted payment callback makes of the account. */
  function Paying(a: Account, v: Verb, p: Payment, now: string): Account {
    var client, note := Strip(p.client), Strip(p.note);
    var last := ("last_callback_status", Word(v));
    match v
    case PaidUp =>
      Annotate(Clear(a, Word(v), Or(note, "grok payment success"), now).(status := Subscribed), client,
               [("payment_reference", Strip(p.reference)), ("paid_at", Or(Strip(p.paidAt), now)), last], now)
    case LinkExpired =>
      var cleared := SetLink(Clear(a, Word(v), Or(note, "grok payment link expired"), now), "");
      if !p.refreshWanted then Annotate(cleared, client, [last, ("refresh_status", "disabled")], now)
      else (
        match p.refresh
        case NewLink(url) =>
          if url == "" then Annotate(cleared, client, [last, ("refresh_status", "failed")], now)
          else Annotate(SetLink(cleared, url), client,
                        [last, ("refresh_status", "success"), ("refreshed_at", now)], now)
        case NoLink(error) => Annotate(cleared, client,
          [last, ("refresh_status", "failed"), ("refresh_error", error)], now)
        case NotAttempted(why) => Annotate(cleared, client,
          [last, ("refresh_status", "skipped"), ("refresh_error", why)], now))
    case FailedPay =>
      var cleared := Clear(a, Word(v), Or(note, "grok payment failed"), now);
      Annotate(if p.clearUrl then SetLink(cleared, "") else cleared, client, [last], now)
    case Skipped => Annotate(Clear(a, Word(v), Or(note, "grok payment skipped"), now), client, [last], now)
  }

  predicate Mismatched(a: Account, reservationId: string) {
    var live := Strip(ReservationId(a));
    Strip(reservationId) != "" && live != "" && Strip(reservationId) != live
  }

  function Pay(rows: seq<Account>, p: Payment, now: string): (seq<Account>, Reply) {
    if PaymentVerb(p.status).None? || p.target == Nobody then (rows, BadRequest)
    else
      var i := Position(rows, p.target, 0);
      if i == |rows| then (rows, NotFound)
      else if Mismatched(rows[i], p.reservationId) then (rows, Conflict)
      else (rows[i := Paying(rows[i], PaymentVerb(p.status).value, p, now)], Done)
  }

  predicate IsComplete(text: string) {
    var s := Lower(Strip(text));
    s == "completed" || s == "complete" || s == "success" || s == "done" || s == "finished" || s == "已完成"
  }

  function Completing(a: Account, client: string, completedAt: string, now: string): Account {
    Annotate(a.(status := Completed), Strip(client),
             [("completed_at", Or(Strip(completedAt), now)), ("last_complete_callback_status", "completed")], now)
  }

  function Complete(
      rows: seq<Account>, status: string, target: Target, client: string, completedAt: string,
      now: string): (seq<Account>, Reply) {
    if !IsComplete(status) || target == Nobody then (rows, BadRequest)
    else
      var i := Position(rows, target, 0);
      if i == |rows| then (rows, NotFound)
      else if !Paid(rows[i]) then (rows, Conflict)
      else (rows[i := Completing(rows[i], client, completedAt, now)], Done)
  }

  function RepairAll(rows: seq<Account>): (r: seq<Account>)
    ensures |r| == |rows| && forall i :: 0 <= i < |rows| ==> r[i] == Repaired(rows[i])
  {
    seq(|rows|, i requires 0 <= i < |rows| => Repaired(rows[i]))
  }

  // ---- runs -----------------------------------------------------------------------------------------

  datatype Event =
    | Register(account: Account)
    | FetchRoute(limit: nat, client: string, tokens: nat -> string, now: string)
    | ReleaseRoute(client: string, ids: set<string>, now: string)
    | PaymentRoute(payment: Payment, now: string)
    | CompleteRoute(status: string, target: Target, client: string, completedAt: string, now: string)
    | PaidListRoute

  function Apply(rows: seq<Account>, e: Event): seq<Account> {
    match e
    case Register(a) => rows + [a]
    case FetchRoute(limit, client, tokens, now) => Fetch(rows, limit, client, tokens, now).rows
    // A blank client id is refused.
    case ReleaseRoute(client, ids, now) =>
      if Strip(client) == "" then rows else ReleaseAll(rows, Strip(client), ids, now)
    case PaymentRoute(p, now) => Pay(rows, p, now).0
    case CompleteRoute(status, target, client, completedAt, now) =>
      Complete(rows, status, target, client, completedAt, now).0
    case PaidListRoute => RepairAll(rows)
  }

  /** The rows a fetch hands out; none for the other routes. */
  function Given(rows: seq<Account>, e: Event): seq<nat> {
    if e.FetchRoute? then Fetch(rows, e.limit, e.client, e.tokens, e.now).given else []
  }

  function Run(rows: seq<Account>, es: seq<Event>): seq<Account>
    decreases |es|
  {
    if |es| == 0 then rows else Run(Apply(rows, es[0]), es[1..])
  }
}
