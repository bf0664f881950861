/** Typed seat capacity of an upcoming invoice (api/business_masters.py).  The evaluator is
    fail-closed: a line that should count but cannot be read spoils the whole split. */
module SeatCapacity {
  import opened Basics
  import opened Text

  // ---- JSON values ---------------------------------------------------------------------------

  datatype Field = Field(key: string, value: Json)

  /** A decoded JSON value; an object keeps its keys in order. */
  datatype Json =
    | Null
    | Bool(b: bool)
    | Number(v: real)
    | Str(s: string)
    | List(items: seq<Json>)
    | Object(fields: seq<Field>)

  function Lookup(fields: seq<Field>, key: string): Option<Json> {
    if |fields| == 0 then None
    else if fields[0].key == key then Some(fields[0].value)
    else Lookup(fields[1..], key)
  }

  /** `value.get(key)`; anything but an object has no keys. */
  function At(v: Json, key: string): Json {
    if v.Object? && Lookup(v.fields, key).Some? then Lookup(v.fields, key).value else Null
  }

  predicate Has(v: Json, key: string) { v.Object? && Lookup(v.fields, key).Some? }

  predicate Truthy(v: Json) {
    match v
    case Null => false
    case Bool(b) => b
    case Number(n) => n != 0.0
    case Str(s) => s != ""
    case List(items) => items != []
    case Object(fields) => fields != []
  }

  function Or(a: Json, b: Json): Json { if Truthy(a) then a else b }

  /** What is left to the environment: decimal numerals, JSON text, Python's `str`, and the
      two text heuristics on an invoice line. */
  datatype Rules = Rules(
    decimal: string -> Option<real>,
    loads: string -> Option<Json>,
    show: Json -> string,
    classify: Json -> Option<Seat>,
    looksLikeSeat: Json -> bool)

  function Shown(r: Rules, v: Json): string {
    if !Truthy(v) then "" else if v.Str? then v.s else r.show(v)
  }

  // ---- quantities and seat types -----------------------------------------------------------------

  datatype Seat = Standard | Prolite

  /** A whole number, given as a number or as decimal text; booleans are no quantities. */
  function WholeNumber(r: Rules, v: Json): Option<int> {
    var n := match v
      case Number(n) => Some(n)
      case Str(s) => if Strip(s) == "" then None else r.decimal(Strip(s))
      case _ => None;
    if n.Some? && n.value.Floor as real == n.value then Some(n.value.Floor) else None
  }

  function PositiveQuantity(r: Rules, v: Json): (q: Option<nat>)
    ensures q.Some? ==> q.value > 0
  {
    var n := WholeNumber(r, v);
    if n.Some? && n.value > 0 then Some(n.value) else None
  }

  function NonnegativeQuantity(r: Rules, v: Json): Option<nat> {
    var n := WholeNumber(r, v);
    if n.Some? && n.value >= 0 then Some(n.value) else None
  }

  function Hyphenated(s: string): string {
    seq(|s|, i requires 0 <= i < |s| => if s[i] == '_' || s[i] == ' ' then '-' else s[i])
  }

  function SeatType(r: Rules, v: Json): Option<Seat> {
    var t := Hyphenated(Lower(Strip(Shown(r, v))));
    if t in {"default", "default-seat", "standard", "standard-seat", "regular", "regular-seat"} then Some(Standard)
    else if t in {"prolite", "pro-lite", "prolite-seat", "pro-lite-seat"} then Some(Prolite)
    else None
  }

  // ---- tallies -------------------------------------------------------------------------------------

  /** Either spoiled, or so many seats of each type. */
  datatype Tally = Bad | Counts(standard: nat, prolite: nat)

  function Seats(seat: Seat, n: nat): Tally {
    if seat == Standard then Counts(n, 0) else Counts(0, n)
  }

  function Plus(a: Tally, b: Tally): Tally {
    if a.Bad? || b.Bad? then Bad else Counts(a.standard + b.standard, a.prolite + b.prolite)
  }

  /** A capacity is a tally that is not spoiled and not empty. */
  function Capacity(t: Tally): Option<Tally> {
    if t.Counts? && t.standard + t.prolite > 0 then Some(t) else None
  }

  function Total(t: Tally): nat
    requires t.Counts?
  {
    t.standard + t.prolite
  }

  function Sum(f: Json -> Tally, items: seq<Json>): Tally {
    if |items| == 0 then Counts(0, 0) else Plus(Sum(f, items[..|items| - 1]), f(items[|items| - 1]))
  }

  // ---- explicit compositions ---------------------------------------------------------------------------

  function EntryTally(r: Rules, item: Json): Tally {
    if !item.Object? then Bad
    else
      var seat := SeatType(r, Or(Or(At(item, "seat_type"), At(item, "type")), At(item, "name")));
      var given := if Has(item, "quantity") then At(item, "quantity") else At(item, "seat_quantity");
      var quantity := NonnegativeQuantity(r, given);
      if seat.None? || quantity.None? then Bad else Seats(seat.value, quantity.value)
  }

  function OfEntry(r: Rules): Json -> Tally { item => EntryTally(r, item) }

  /** An object of `type: quantity` pairs, read as a list of entries. */
  function AsEntries(fields: seq<Field>): seq<Json> {
    seq(|fields|, i requires 0 <= i < |fields| =>
      Object([Field("seat_type", Str(fields[i].key)), Field("quantity", fields[i].value)]))
  }

  function Entries(r: Rules, value: Json): Option<seq<Json>> {
    var v := if value.Str? then r.loads(value.s) else Some(value);
    if v.None? then None
    else match v.value
      case Object(fields) =>
        if Has(v.value, "seat_type") || Has(v.value, "type") then Some([v.value]) else Some(AsEntries(fields))
      case List(items) => Some(items)
      case _ => None
  }

  function Composition(r: Rules, value: Json): Option<Tally> {
    var entries := Entries(r, value);
    if entries.None? then None else Capacity(Sum(OfEntry(r), entries.value))
  }

  const STANDARD_KEYS := ["default_seat_quantity", "default_seats", "seat_quantity_default",
    "standard_seat_quantity", "standard_seats"]
  const PROLITE_KEYS := ["prolite_seat_quantity", "prolite_seats", "seat_quantity_prolite", "pro_lite_seat_quantity",
    "pro_lite_seats"]

  /** The first alias key that is present decides: None spoils, an absent type counts 0. */
  function AliasQuantity(r: Rules, metadata: Json, keys: seq<string>): Option<nat> {
    if |keys| == 0 then Some(0)
    else if Has(metadata, keys[0]) then NonnegativeQuantity(r, At(metadata, keys[0]))
    else AliasQuantity(r, metadata, keys[1..])
  }

  function MetadataComposition(r: Rules, metadata: Json): Option<Tally> {
    if !metadata.Object? then None
    else
      var listed := if Has(metadata, "seat_quantities") then Composition(r, At(metadata, "seat_quantities")) else None;
      if listed.Some? then listed
      else
        var a, b := AliasQuantity(r, metadata, STANDARD_KEYS), AliasQuantity(r, metadata, PROLITE_KEYS);
        if a.None? || b.None? then None else Capacity(Counts(a.value, b.value))
  }

  datatype Source = Invoice | Subscription | SubscriptionMetadata(listed: bool) | InvoiceMetadata(listed: bool)
    | RecurringLines | NoSource

  function Structured(r: Rules, body: Json): (Option<Tally>, Source) {
    var subscription := At(body, "subscription_details");
    var c1 := Composition(r, At(body, "seat_quantities"));
    if c1.Some? then (c1, Invoice)
    else
      var c2 := Composition(r, At(subscription, "seat_quantities"));
      if c2.Some? then (c2, Subscription)
      else
        var m3 := At(subscription, "metadata");
        var c3 := MetadataComposition(r, m3);
        if c3.Some? then (c3, SubscriptionMetadata(Has(m3, "seat_quantities")))
        else
          var m4 := At(body, "metadata");
          var c4 := MetadataComposition(r, m4);
          if c4.Some? then (c4, InvoiceMetadata(Has(m4, "seat_quantities"))) else (None, NoSource)
  }

  // ---- recurring lines ------------------------------------------------------------------------------------

  predicate Recurring(r: Rules, line: Json) {
    line.Object? && !Truthy(At(line, "proration")) &&
    var kind := Lower(Strip(Shown(r, At(line, "type"))));
    kind == "subscription" ||
    ((kind == "" || kind == "subscription_item") &&
     (Strip(Shown(r, At(line, "subscription"))) != "" || Strip(Shown(r, At(line, "subscription_item"))) != ""
      || At(At(line, "price"), "recurring").Object?
      || (At(line, "plan").Object? && Strip(Shown(r, At(At(line, "plan"), "interval"))) != "")
      || At(At(line, "parent"), "subscription_item_details").Object?))
  }

  function LineTally(r: Rules, line: Json): Tally {
    if !Recurring(r, line) then Counts(0, 0)
    else match r.classify(line)
      case None => if r.looksLikeSeat(line) then Bad else Counts(0, 0)
      case Some(seat) =>
        var quantity := PositiveQuantity(r, At(line, "quantity"));
        if quantity.None? then Bad else Seats(seat, quantity.value)
  }

  function OfLine(r: Rules): Json -> Tally { line => LineTally(r, line) }

  function Lines(body: Json): Option<seq<Json>> {
    var data := At(At(body, "lines"), "data");
    if data.List? then Some(data.items) else None
  }

  function RecurringComposition(r: Rules, body: Json): Option<Tally> {
    if Lines(body).None? then None else Capacity(Sum(OfLine(r), Lines(body).value))
  }

  // ---- the two entry points ----------------------------------------------------------------------------------

  function Snapshot(r: Rules, body: Json): Option<nat> {
    PositiveQuantity(r, At(At(At(body, "subscription_details"), "metadata"), "subscription_quantity"))
  }

  /** `_parse_upcoming_invoice_seats`. */
  function UpcomingSeats(r: Rules, body: Json): Option<nat> {
    if !body.Object? then None
    else
      var structured := Structured(r, body).0;
      if structured.Some? then Some(Total(structured.value))
      else
        var recurring := RecurringComposition(r, body);
        if recurring.Some? then Some(Total(recurring.value)) else Snapshot(r, body)
  }

  datatype Breakdown = Breakdown(standard: Option<nat>, prolite: Option<nat>, total: Option<nat>, known: bool,
    source: Source)

  function Known(t: Tally, source: Source): Breakdown
    requires t.Counts?
  {
    Breakdown(Some(t.standard), Some(t.prolite), Some(Total(t)), true, source)
  }

  /** `_parse_upcoming_invoice_seat_breakdown`. */
  function SeatBreakdown(r: Rules, body: Json): Breakdown {
    var unknown := Breakdown(None, None, UpcomingSeats(r, body), false, NoSource);
    if !body.Object? then unknown
    else
      var (structured, source) := Structured(r, body);
      if structured.Some? then Known(structured.value, source)
      else
        var counts := RecurringComposition(r, body);
        if counts.Some? then Known(counts.value, RecurringLines) else unknown
  }

  // ---- the loops ------------------------------------------------------------------------------------------------

  /** `_seat_composition`. */
  method SeatComposition(r: Rules, value: Json) returns (counts: Option<Tally>)
    ensures counts == Composition(r, value)
  {
    hide Entries, SeatType, WholeNumber, Or, At, Has;
    var entries := Entries(r, value);
    if entries.None? {
      return None;
    }
    var f := OfEntry(r);
    var standard: nat, prolite: nat := 0, 0;
    for i := 0 to |entries.value|
      invariant Sum(f, entries.value[..i]) == Counts(standard, prolite)
    {
      var item := entries.value[i];
      assert entries.value[..i + 1][..i] == entries.value[..i];
      if !item.Object? {
        BadStaysBad(f, entries.value, i);
        return None;
      }
      var seat := SeatType(r, Or(Or(At(item, "seat_type"), At(item, "type")), At(item, "name")));
      var given := if Has(item, "quantity") then At(item, "quantity") else At(item, "seat_quantity");
      var quantity := NonnegativeQuantity(r, given);
      if seat.None? || quantity.None? {
        BadStaysBad(f, entries.value, i);
        return None;
      }
      if seat.value == Standard {
        standard := standard + quantity.value;
      } else {
        prolite := prolite + quantity.value;
      }
    }
    assert entries.value[..|entries.value|] == entries.value;
    counts := if standard + prolite > 0 then Some(Counts(standard, prolite)) else None;
  }

  /** `_recurring_invoice_seat_composition`. */
  method RecurringInvoiceSeatComposition(r: Rules, body: Json) returns (counts: Option<Tally>)
    ensures counts == RecurringComposition(r, body)
  {
    hide Lines, Recurring, WholeNumber;
    var lines := Lines(body);
    if lines.None? {
      return None;
    }
    var f := OfLine(r);
    var standard: nat, prolite: nat := 0, 0;
    for i := 0 to |lines.value|
      invariant Sum(f, lines.value[..i]) == Counts(standard, prolite)
    {
      var line := lines.value[i];
      assert lines.value[..i + 1][..i] == lines.value[..i];
      if Recurring(r, line) {
        var seat := r.classify(line);
        if seat.None? {
          if r.looksLikeSeat(line) {
            BadStaysBad(f, lines.value, i);
            return None;
          }
        } else {
          var quantity := PositiveQuantity(r, At(line, "quantity"));
          if quantity.None? {
            BadStaysBad(f, lines.value, i);
            return None;
          }
          if seat.value == Standard {
            standard := standard + quantity.value;
          } else {
            prolite := prolite + quantity.value;
          }
        }
      }
    }
    assert lines.value[..|lines.value|] == lines.value;
    counts := if standard + prolite > 0 then Some(Counts(standard, prolite)) else None;
  }

  lemma {:induction false} BadStaysBad(f: Json -> Tally, items: seq<Json>, i: nat)
    requires i < |items| && f(items[i]).Bad?
    ensures Sum(f, items).Bad?
    decreases |items|
  {
    if i < |items| - 1 {
      BadStaysBad(f, items[..|items| - 1], i);
    }
  }
}
