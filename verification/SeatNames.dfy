/** What the names in an invoice mean (api/business_masters.py): which texts name which seat type,
    in explicit lists and in metadata, which source is believed first, and which lines count. */
module SeatNames {
  import opened Basics
  import opened Text
  import opened SeatCapacity
  import opened SeatTheorems

  // ---- names of seat types ---------------------------------------------------------------------------

  /** A text as names are compared: trimmed, in lower case, with hyphens for blanks and underscores. */
  function Name(s: string): string { Hyphenated(Lower(Strip(s))) }

  predicate NamesStandard(s: string) {
    Name(s) in {"default", "default-seat", "standard", "standard-seat", "regular", "regular-seat"}
  }

  predicate NamesProlite(s: string) { Name(s) in {"prolite", "pro-lite", "prolite-seat", "pro-lite-seat"} }

  lemma SeatTypeOfText(r: Rules, s: string)
    ensures SeatType(r, Str(s)) ==
      if NamesStandard(s) then Some(Standard) else if NamesProlite(s) then Some(Prolite) else None
  {
    hide Lower, Hyphenated;
    TrimTwice("", IsSpace);
    hide Strip;
    assert Strip("") == "";
    assert Hyphenated(Lower(Strip(""))) == "" by {
      NothingHyphenated();
    }
  }

  lemma NothingHyphenated()
    ensures Hyphenated(Lower("")) == ""
  {
  }

  // ---- explicit lists --------------------------------------------------------------------------------------

  /** One `name: quantity` pair of an explicit composition. */
  datatype Entry = Entry(name: string, quantity: nat)

  function AsField(e: Entry): Field { Field(e.name, Number(e.quantity as real)) }

  function AsFields(entries: seq<Entry>): seq<Field> {
    seq(|entries|, i requires 0 <= i < |entries| => AsField(entries[i]))
  }

  /** The seats that the entries name as standard or as prolite ones. */
  function StandardSeats(entries: seq<Entry>): nat {
    if |entries| == 0 then 0
    else StandardSeats(entries[..|entries| - 1])
         + if NamesStandard(entries[|entries| - 1].name) then entries[|entries| - 1].quantity else 0
  }

  function ProliteSeats(entries: seq<Entry>): nat {
    if |entries| == 0 then 0
    else ProliteSeats(entries[..|entries| - 1])
         + if NamesProlite(entries[|entries| - 1].name) then entries[|entries| - 1].quantity else 0
  }

  /** No entry calls itself a type of its own: the object is a list of pairs, not one entry. */
  predicate IsPairs(entries: seq<Entry>) {
    forall i :: 0 <= i < |entries| ==> entries[i].name != "seat_type" && entries[i].name != "type"
  }

  predicate Named(entries: seq<Entry>) {
    forall i :: 0 <= i < |entries| ==> NamesStandard(entries[i].name) || NamesProlite(entries[i].name)
  }

  lemma QuantityOfNat(r: Rules, n: nat)
    ensures WholeNumber(r, Number(n as real)) == Some(n)
  {
    assert (n as real).Floor == n;
  }

  function EntryObject(e: Entry): Json {
    Object([Field("seat_type", Str(e.name)), Field("quantity", Number(e.quantity as real))])
  }

  lemma EntryMeans(r: Rules, e: Entry)
    requires e.name != ""
    ensures EntryTally(r, EntryObject(e)) ==
      if NamesStandard(e.name) then Counts(e.quantity, 0)
      else if NamesProlite(e.name) then Counts(0, e.quantity) else Bad
  {
    hide SeatType, NamesStandard, NamesProlite;
    EntryParts(e);
    SeatTypeOfText(r, e.name);
    QuantityOfNat(r, e.quantity);
    hide WholeNumber, At, Has;
  }

  lemma EntryParts(e: Entry)
    ensures At(EntryObject(e), "seat_type") == Str(e.name)
    ensures Has(EntryObject(e), "quantity") && At(EntryObject(e), "quantity") == Number(e.quantity as real)
  {
    var fields := EntryObject(e).fields;
    assert fields[1..] == [Field("quantity", Number(e.quantity as real))];
    assert Lookup(fields[1..], "quantity") == Some(Number(e.quantity as real));
  }

  lemma {:induction false} EntriesSum(r: Rules, entries: seq<Entry>)
    requires Named(entries)
    ensures Sum(OfEntry(r), AsEntries(AsFields(entries))) == Counts(StandardSeats(entries), ProliteSeats(entries))
  {
    hide NamesStandard, NamesProlite, EntryTally;
    if |entries| > 0 {
      var init, last := entries[..|entries| - 1], entries[|entries| - 1];
      EntriesSum(r, init);
      NamesAreDifferent(last.name);
      EntryMeans(r, last);
      var all := AsEntries(AsFields(entries));
      assert all[..|all| - 1] == AsEntries(AsFields(init)) && all[|all| - 1] == EntryObject(last);
    }
  }

  lemma NamesAreDifferent(s: string)
    ensures !(NamesStandard(s) && NamesProlite(s))
    ensures NamesStandard(s) || NamesProlite(s) ==> s != ""
  {
    hide Lower, Hyphenated, Strip;
    BlankNamesNothing();
  }

  lemma BlankNamesNothing()
    ensures Name("") == ""
  {
    TrimTwice("", IsSpace);
    NothingHyphenated();
  }

  lemma {:induction false} NoSuchKey(entries: seq<Entry>, key: string)
    requires forall i :: 0 <= i < |entries| ==> entries[i].name != key
    ensures Lookup(AsFields(entries), key) == None
  {
    if |entries| > 0 {
      assert AsFields(entries)[1..] == AsFields(entries[1..]);
      NoSuchKey(entries[1..], key);
    }
  }

  /** An explicit composition counts, for each type, the quantities under the names of that type -
      and with no seat at all it is none. */
  lemma NamedListCounts(r: Rules, entries: seq<Entry>)
    requires Named(entries) && IsPairs(entries)
    ensures var standard, prolite := StandardSeats(entries), ProliteSeats(entries);
      Composition(r, Object(AsFields(entries)))
      == if standard + prolite > 0 then Some(Counts(standard, prolite)) else None
  {
    hide NamesStandard, NamesProlite, AsEntries, StandardSeats, ProliteSeats;
    NoSuchKey(entries, "seat_type");
    NoSuchKey(entries, "type");
    EntriesSum(r, entries);
  }

  /** One entry under any other name spoils the whole composition. */
  lemma UnknownNameSpoils(r: Rules, entries: seq<Entry>, i: nat)
    requires IsPairs(entries) && i < |entries| && entries[i].name != ""
    requires !NamesStandard(entries[i].name) && !NamesProlite(entries[i].name)
    ensures Composition(r, Object(AsFields(entries))) == None
  {
    hide NamesStandard, NamesProlite, EntryTally, Sum;
    NoSuchKey(entries, "seat_type");
    NoSuchKey(entries, "type");
    EntryMeans(r, entries[i]);
    BadStaysBad(OfEntry(r), AsEntries(AsFields(entries)), i);
  }

  /** Five default and two prolite seats. */
  lemma FiveAndTwo(r: Rules)
    ensures var body := Object([Field("seat_quantities",
        Object([Field("default", Number(5.0)), Field("prolite", Number(2.0))]))]);
      SeatBreakdown(r, body) == Breakdown(Some(5), Some(2), Some(7), true, Invoice) && UpcomingSeats(r, body) == Some(7)
  {
    var pairs := Object([Field("default", Number(5.0)), Field("prolite", Number(2.0))]);
    FiveAndTwoPairs(r);
    hide Composition;
    var body := Object([Field("seat_quantities", pairs)]);
    assert At(body, "seat_quantities") == pairs;
    hide At, MetadataComposition, RecurringComposition, Snapshot;
  }

  lemma FiveAndTwoPairs(r: Rules)
    ensures Composition(r, Object([Field("default", Number(5.0)), Field("prolite", Number(2.0))])) == Some(Counts(5, 2))
  {
    var entries := [Entry("default", 5), Entry("prolite", 2)];
    assert AsFields(entries) == [Field("default", Number(5.0)), Field("prolite", Number(2.0))];
    FiveAndTwoSum();
    hide Composition, Named, StandardSeats, ProliteSeats, NamesStandard, NamesProlite;
    NamedListCounts(r, entries);
  }

  lemma FiveAndTwoSum()
    ensures var entries := [Entry("default", 5), Entry("prolite", 2)];
      Named(entries) && StandardSeats(entries) == 5 && ProliteSeats(entries) == 2
  {
    var entries := [Entry("default", 5), Entry("prolite", 2)];
    PlainName("default");
    PlainName("prolite");
    hide Name;
    assert entries[..1] == [Entry("default", 5)] && [Entry("default", 5)][..0] == [];
  }

  lemma PlainName(s: string)
    requires s == "default" || s == "prolite"
    ensures Name(s) == s
  {
    TrimTwice(s, IsSpace);
    hide Strip;
    assert Lower(s) == s;
  }

  // ---- one entry of a list, and other ways to write a list ---------------------------------------

  /** An entry of a list with every key it may use. */
  function FullEntry(a: string, b: string, c: string, p: Json, q: Json): Json {
    Object([Field("seat_type", Str(a)), Field("type", Str(b)), Field("name", Str(c)), Field("quantity", p),
            Field("seat_quantity", q)])
  }

  /** The seats a name and a quantity stand for. */
  function Stands(r: Rules, name: string, quantity: Json): Tally {
    var n := NonnegativeQuantity(r, quantity);
    if n.None? then Bad
    else if NamesStandard(name) then Counts(n.value, 0)
    else if NamesProlite(name) then Counts(0, n.value) else Bad
  }

  lemma FullEntryParts(a: string, b: string, c: string, p: Json, q: Json)
    ensures var e := FullEntry(a, b, c, p, q);
      && At(e, "seat_type") == Str(a) && At(e, "type") == Str(b) && At(e, "name") == Str(c)
      && Has(e, "quantity") && At(e, "quantity") == p && At(e, "seat_quantity") == q
  {
    var fields := FullEntry(a, b, c, p, q).fields;
    assert fields[1..][0] == fields[1] && fields[1..][1..] == fields[2..];
    assert fields[2..][0] == fields[2] && fields[2..][1..] == fields[3..];
    assert fields[3..][0] == fields[3] && fields[3..][1..] == fields[4..];
    assert fields[4..][0] == fields[4];
    assert Lookup(fields[4..], "seat_quantity") == Some(q);
    assert Lookup(fields[3..], "quantity") == Some(p) && Lookup(fields[3..], "seat_quantity") == Some(q);
    assert Lookup(fields[2..], "name") == Some(Str(c)) && Lookup(fields[2..], "quantity") == Some(p);
    assert Lookup(fields[2..], "seat_quantity") == Some(q);
    assert Lookup(fields[1..], "type") == Some(Str(b)) && Lookup(fields[1..], "name") == Some(Str(c));
    assert Lookup(fields[1..], "quantity") == Some(p) && Lookup(fields[1..], "seat_quantity") == Some(q);
  }

  /** Which keys an entry is read by: the type from the first non-empty one of "seat_type", "type"
      and "name", the quantity from "quantity" whenever that key is there. */
  lemma EntryKeys(r: Rules, a: string, b: string, c: string, p: Json, q: Json)
    requires a != "" || b != "" || c != ""
    ensures EntryTally(r, FullEntry(a, b, c, p, q)) == Stands(r, if a != "" then a else if b != "" then b else c, p)
  {
    FullEntryParts(a, b, c, p, q);
    var name := if a != "" then a else if b != "" then b else c;
    SeatTypeOfText(r, name);
    NamesAreDifferent(name);
    hide At, Has, SeatType, NonnegativeQuantity, NamesStandard, NamesProlite;
  }

  /** Without a "quantity" the quantity is read from "seat_quantity". */
  lemma OtherQuantityKey(r: Rules, name: string, q: Json)
    requires name != ""
    ensures EntryTally(r, Object([Field("name", Str(name)), Field("seat_quantity", q)])) == Stands(r, name, q)
  {
    var fields := [Field("name", Str(name)), Field("seat_quantity", q)];
    assert fields[1..] == [Field("seat_quantity", q)] && fields[1..][1..] == [];
    assert Lookup(fields[1..], "seat_quantity") == Some(q) && Lookup(fields[1..], "quantity") == None;
    forall key ensures Lookup(fields[1..], key) == if key == "seat_quantity" then Some(q) else None {
      assert Lookup(fields[1..][1..], key) == None;
    }
    var e := Object(fields);
    forall key | key != "name" ensures Lookup(fields, key) == Lookup(fields[1..], key) {}
    assert At(e, "name") == Str(name) && At(e, "seat_type") == Null && At(e, "type") == Null;
    assert !Has(e, "quantity") && At(e, "seat_quantity") == q;
    SeatTypeOfText(r, name);
    NamesAreDifferent(name);
    hide At, Has, SeatType, NonnegativeQuantity, NamesStandard, NamesProlite;
  }

  /** Other ways to write a composition: a text is read as JSON, once; an object that calls itself a
      type is a list of one entry; a list is taken entry by entry; anything else is none. */
  lemma CompositionForms(r: Rules, v: Json)
    ensures v.List? ==> Composition(r, v) == Capacity(Sum(OfEntry(r), v.items))
    ensures v.Object? && (Has(v, "seat_type") || Has(v, "type")) ==> Composition(r, v) == Capacity(Sum(OfEntry(r), [v]))
    ensures v.Str? ==>
      Composition(r, v) ==
      (match r.loads(v.s) case Some(Object(fields)) => Composition(r, Object(fields))
                          case Some(List(items)) => Composition(r, List(items))
                          case _ => None)
    ensures v.Null? || v.Bool? || v.Number? ==> Composition(r, v) == None
  {
    hide Sum, OfEntry, Capacity, AsEntries, Has;
  }

  // ---- metadata keys ----------------------------------------------------------------------

  predicate IsStandardKey(key: string) {
    key in {"default_seat_quantity", "default_seats", "seat_quantity_default", "standard_seat_quantity",
            "standard_seats"}
  }

  predicate IsProliteKey(key: string) {
    key in {"prolite_seat_quantity", "prolite_seats", "seat_quantity_prolite", "pro_lite_seat_quantity",
            "pro_lite_seats"}
  }

  /** A quantity alone under one of the ten metadata keys counts for the type the key names. */
  lemma MetadataKeyCounts(r: Rules, key: string, n: nat)
    requires n > 0
    ensures IsStandardKey(key) ==>
      MetadataComposition(r, Object([Field(key, Number(n as real))])) == Some(Counts(n, 0))
    ensures IsProliteKey(key) ==>
      MetadataComposition(r, Object([Field(key, Number(n as real))])) == Some(Counts(0, n))
    ensures !IsStandardKey(key) && !IsProliteKey(key) && key != "seat_quantities" ==>
      MetadataComposition(r, Object([Field(key, Number(n as real))])) == None
  {
    var m := Object([Field(key, Number(n as real))]);
    OneField(r, key, n);
    hide NonnegativeQuantity, At, Has, Composition, IsStandardKey, IsProliteKey;
    OneKey(r, m, key, STANDARD_KEYS, n);
    OneKey(r, m, key, PROLITE_KEYS, n);
    KeysAreThese(key);
  }

  lemma OneField(r: Rules, key: string, n: nat)
    ensures var m := Object([Field(key, Number(n as real))]);
      && (forall other :: Has(m, other) <==> other == key) && At(m, key) == Number(n as real)
      && NonnegativeQuantity(r, At(m, key)) == Some(n)
  {
    var m := Object([Field(key, Number(n as real))]);
    QuantityOfNat(r, n);
    hide WholeNumber;
    assert m.fields[1..] == [];
    forall other ensures Has(m, other) <==> other == key {
      assert Lookup(m.fields[1..], other) == None;
    }
  }

  lemma KeysAreThese(key: string)
    ensures key in STANDARD_KEYS <==> IsStandardKey(key)
    ensures key in PROLITE_KEYS <==> IsProliteKey(key)
    ensures !(IsStandardKey(key) && IsProliteKey(key))
    ensures !IsStandardKey("seat_quantities") && !IsProliteKey("seat_quantities")
  {
  }

  lemma {:induction false} OneKey(r: Rules, m: Json, key: string, keys: seq<string>, n: nat)
    requires (forall other :: Has(m, other) <==> other == key) && NonnegativeQuantity(r, At(m, key)) == Some(n)
    ensures AliasQuantity(r, m, keys) == Some(if key in keys then n else 0)
  {
    hide At, Has, NonnegativeQuantity;
    if |keys| > 0 {
      OneKey(r, m, key, keys[1..], n);
    }
  }

  /** Of several keys for one type the first that is there decides, readable or not; a type with no
      key counts nothing. */
  lemma {:induction false} FirstKeyDecides(r: Rules, m: Json, keys: seq<string>, k: nat)
    requires k <= |keys| && (forall j :: 0 <= j < k ==> !Has(m, keys[j])) && (k < |keys| ==> Has(m, keys[k]))
    ensures AliasQuantity(r, m, keys) == if k < |keys| then NonnegativeQuantity(r, At(m, keys[k])) else Some(0)
  {
    hide Has, At, NonnegativeQuantity;
    if k > 0 {
      assert forall j :: 0 <= j < k - 1 ==> keys[1..][j] == keys[j + 1];
      FirstKeyDecides(r, m, keys[1..], k - 1);
    }
  }

  /** Metadata: a readable list goes before the single keys; without one both types are read from
      their keys, in the order in which they are listed here. */
  lemma MetadataReads(r: Rules, m: Json)
    requires m.Object?
    ensures var listed := Composition(r, At(m, "seat_quantities"));
      var standard := AliasQuantity(r, m, ["default_seat_quantity", "default_seats", "seat_quantity_default",
                                           "standard_seat_quantity", "standard_seats"]);
      var prolite := AliasQuantity(r, m, ["prolite_seat_quantity", "prolite_seats", "seat_quantity_prolite",
                                          "pro_lite_seat_quantity", "pro_lite_seats"]);
      MetadataComposition(r, m) ==
        if Has(m, "seat_quantities") && listed.Some? then listed
        else if standard.None? || prolite.None? || standard.value + prolite.value == 0 then None
        else Some(Counts(standard.value, prolite.value))
  {
    hide Composition, AliasQuantity, Has, At;
  }

  // ---- which source is believed ------------------------------------------------------------

  /** The first readable composition decides: that of the invoice itself, then of its subscription,
      then the subscription's metadata, then the invoice's; then the recurring lines; and only for
      the total the snapshot of the subscription's quantity. */
  lemma SourcesInOrder(r: Rules, body: Json)
    requires body.Object?
    ensures var subscription := At(body, "subscription_details");
      var own := Composition(r, At(body, "seat_quantities"));
      var theirs := Composition(r, At(subscription, "seat_quantities"));
      var theirMeta := MetadataComposition(r, At(subscription, "metadata"));
      var ownMeta, lines := MetadataComposition(r, At(body, "metadata")), RecurringComposition(r, body);
      var first := if own.Some? then own else if theirs.Some? then theirs else if theirMeta.Some? then theirMeta
                   else if ownMeta.Some? then ownMeta else lines;
      var source := if own.Some? then Invoice else if theirs.Some? then Subscription
                    else if theirMeta.Some?
                      then SubscriptionMetadata(Has(At(subscription, "metadata"), "seat_quantities"))
                    else if ownMeta.Some? then InvoiceMetadata(Has(At(body, "metadata"), "seat_quantities"))
                    else RecurringLines;
      && (first.Some? ==>
            SeatBreakdown(r, body).source == source && first.value.Counts?
            && UpcomingSeats(r, body) == Some(first.value.standard + first.value.prolite)
            && SeatBreakdown(r, body).known && SeatBreakdown(r, body).standard == Some(first.value.standard)
            && SeatBreakdown(r, body).prolite == Some(first.value.prolite))
      && (first.None? ==>
            && !SeatBreakdown(r, body).known && SeatBreakdown(r, body).standard == None
            && SeatBreakdown(r, body).prolite == None
            && UpcomingSeats(r, body)
               == PositiveQuantity(r, At(At(At(body, "subscription_details"), "metadata"), "subscription_quantity")))
  {
    CompositionsAreCounts(r, At(body, "seat_quantities"));
    CompositionsAreCounts(r, At(At(body, "subscription_details"), "seat_quantities"));
    MetadataIsCounts(r, At(At(body, "subscription_details"), "metadata"));
    MetadataIsCounts(r, At(body, "metadata"));
    hide Composition, MetadataComposition, RecurringComposition, PositiveQuantity, At, Has;
    LinesAreCounts(r, body);
  }

  lemma CompositionsAreCounts(r: Rules, v: Json)
    ensures Composition(r, v).Some? ==> Composition(r, v).value.Counts?
  {
    hide Sum, Entries;
  }

  lemma LinesAreCounts(r: Rules, body: Json)
    ensures RecurringComposition(r, body).Some? ==> RecurringComposition(r, body).value.Counts?
  {
    hide Sum, Lines;
  }

  lemma MetadataIsCounts(r: Rules, v: Json)
    ensures MetadataComposition(r, v).Some? ==> MetadataComposition(r, v).value.Counts?
  {
    CompositionsAreCounts(r, At(v, "seat_quantities"));
    hide Composition, AliasQuantity, At, Has;
  }

  /** The lines of an invoice: the list under "data" of its "lines". */
  lemma LinesAre(body: Json, items: seq<Json>)
    ensures Lines(body) == Some(items) <==> At(At(body, "lines"), "data") == List(items)
  {
    hide At;
  }

  // ---- lines --------------------------------------------------------------------------------

  /** Something on the line marks it as part of a subscription. */
  predicate Marked(r: Rules, line: Json) {
    || Strip(Shown(r, At(line, "subscription"))) != "" || Strip(Shown(r, At(line, "subscription_item"))) != ""
    || At(At(line, "price"), "recurring").Object?
    || (At(line, "plan").Object? && Strip(Shown(r, At(At(line, "plan"), "interval"))) != "")
    || At(At(line, "parent"), "subscription_item_details").Object?
  }

  /** What a line adds: a proration nothing; a line of type "subscription" its quantity; one of type
      "subscription_item" or without a type its quantity if it is marked; any other type nothing.
      A counted line without a positive whole quantity, or of a kind that looks like a seat but is
      not known, spoils everything. */
  lemma LineAdds(r: Rules, line: Json)
    requires line.Object?
    ensures var kind := Lower(Strip(Shown(r, At(line, "type"))));
      var counted := !Truthy(At(line, "proration"))
                     && (kind == "subscription" || (kind in {"", "subscription_item"} && Marked(r, line)));
      var n := WholeNumber(r, At(line, "quantity"));
      LineTally(r, line) ==
        if !counted then Counts(0, 0)
        else if r.classify(line).None? then if r.looksLikeSeat(line) then Bad else Counts(0, 0)
        else if n.None? || n.value <= 0 then Bad
        else if r.classify(line) == Some(Standard) then Counts(n.value, 0) else Counts(0, n.value)
  {
    hide WholeNumber, At, Shown, Truthy, Lower, Strip;
  }

  /** An explicit zero is a quantity in a composition, but none on a line; fractions and booleans
      are quantities nowhere; a text is the number it spells. */
  lemma QuantitiesMean(r: Rules, x: real, b: bool, s: string)
    ensures PositiveQuantity(r, Number(x)).Some? <==> x > 0.0 && x == x.Floor as real
    ensures NonnegativeQuantity(r, Number(x)).Some? <==> x >= 0.0 && x == x.Floor as real
    ensures PositiveQuantity(r, Number(x)).Some? ==> PositiveQuantity(r, Number(x)).value as real == x
    ensures NonnegativeQuantity(r, Number(x)).Some? ==> NonnegativeQuantity(r, Number(x)).value as real == x
    ensures PositiveQuantity(r, Bool(b)) == None && NonnegativeQuantity(r, Bool(b)) == None
    ensures PositiveQuantity(r, Null) == None && NonnegativeQuantity(r, Null) == None
    ensures var n := r.decimal(Strip(s));
      NonnegativeQuantity(r, Str(s)) ==
        if Strip(s) == "" || n.None? then None else NonnegativeQuantity(r, Number(n.value))
  {
  }
}
