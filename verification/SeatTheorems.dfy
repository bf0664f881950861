/** What the seat evaluator promises: all or nothing, no dependence on how the invoice is
    written down, and two entry points that agree. */
module SeatTheorems {
  import opened Basics
  import opened SeatCapacity

  // ---- sums ----------------------------------------------------------------------------------

  lemma {:induction false} SumIsBad(f: Json -> Tally, items: seq<Json>)
    ensures Sum(f, items).Bad? <==> exists i :: 0 <= i < |items| && f(items[i]).Bad?
  {
    if |items| > 0 {
      var init := items[..|items| - 1];
      SumIsBad(f, init);
      if Sum(f, init).Bad? {
        var i :| 0 <= i < |init| && f(init[i]).Bad?;
        assert f(items[i]).Bad?;
      }
      if f(items[|items| - 1]).Bad? {}
      forall i | 0 <= i < |items| && f(items[i]).Bad? ensures Sum(f, items).Bad? {
        BadStaysBad(f, items, i);
      }
    }
  }

  lemma PlusIsAssociative(a: Tally, b: Tally, c: Tally)
    ensures Plus(Plus(a, b), c) == Plus(a, Plus(b, c)) && Plus(a, b) == Plus(b, a)
  {
  }

  lemma SumStep(f: Json -> Tally, items: seq<Json>, x: Json)
    ensures Sum(f, items + [x]) == Plus(Sum(f, items), f(x))
  {
    assert (items + [x])[..|items|] == items;
  }

  lemma {:induction false} SumSplits(f: Json -> Tally, a: seq<Json>, b: seq<Json>)
    ensures Sum(f, a + b) == Plus(Sum(f, a), Sum(f, b))
    decreases |b|
  {
    if |b| == 0 {
      assert a + b == a;
    } else {
      var init, last := b[..|b| - 1], b[|b| - 1];
      assert b == init + [last] && a + b == a + init + [last];
      hide Sum, Plus;
      SumSplits(f, a, init);
      SumStep(f, a + init, last);
      SumStep(f, init, last);
      PlusIsAssociative(Sum(f, a), Sum(f, init), f(last));
    }
  }

  lemma SumOfOne(f: Json -> Tally, x: Json)
    ensures Sum(f, [x]) == f(x)
  {
    assert [x][..0] == [];
    assert Sum(f, []) == Counts(0, 0);
  }

  lemma SumAround(f: Json -> Tally, a: seq<Json>, x: Json, b: seq<Json>)
    ensures Sum(f, a + [x] + b) == Plus(f(x), Sum(f, a + b))
  {
    SumSplits(f, a + [x], b);
    SumSplits(f, a, [x]);
    SumOfOne(f, x);
    SumSplits(f, a, b);
  }

  /** Two lists with the same elements: the first one's head can be taken out of the second. */
  lemma TakeHead(a: seq<Json>, b: seq<Json>) returns (k: nat)
    requires |a| > 0 && multiset(a) == multiset(b)
    ensures k < |b| && b[k] == a[0] && multiset(a[1..]) == multiset(b[..k] + b[k + 1..])
  {
    assert a[0] in multiset(a);
    assert a[0] in b;
    k :| 0 <= k < |b| && b[k] == a[0];
    WithoutOne(a, 0);
    assert a[..0] + a[1..] == a[1..];
    WithoutOne(b, k);
  }

  lemma WithoutOne(a: seq<Json>, k: nat)
    requires k < |a|
    ensures multiset(a[..k] + a[k + 1..]) == multiset(a) - multiset{a[k]}
  {
    assert a == a[..k] + [a[k]] + a[k + 1..];
  }

  lemma {:induction false} SumForgetsOrder(f: Json -> Tally, a: seq<Json>, b: seq<Json>)
    requires multiset(a) == multiset(b)
    ensures Sum(f, a) == Sum(f, b)
    decreases |a|
  {
    if |a| == 0 {
      assert |multiset(b)| == |b|;
    } else {
      hide Sum;
      var k := TakeHead(a, b);
      SumForgetsOrder(f, a[1..], b[..k] + b[k + 1..]);
      SumAround(f, [], a[0], a[1..]);
      assert [] + [a[0]] + a[1..] == a && [] + a[1..] == a[1..];
      SumAround(f, b[..k], a[0], b[k + 1..]);
      assert b[..k] + [a[0]] + b[k + 1..] == b;
    }
  }

  // ---- one line's contribution -----------------------------------------------------------------

  /** A line that does not spoil the split: if it is recurring it is either recognised, with a
      positive whole quantity, or not about seats at all. */
  predicate Readable(r: Rules, line: Json) {
    Recurring(r, line) ==>
      if r.classify(line).Some? then PositiveQuantity(r, At(line, "quantity")).Some? else !r.looksLikeSeat(line)
  }

  function SeatsFrom(r: Rules, line: Json, seat: Seat): nat {
    if Recurring(r, line) && r.classify(line) == Some(seat) && PositiveQuantity(r, At(line, "quantity")).Some?
    then PositiveQuantity(r, At(line, "quantity")).value else 0
  }

  function SeatsOf(r: Rules, lines: seq<Json>, seat: Seat): nat {
    if |lines| == 0 then 0 else SeatsFrom(r, lines[0], seat) + SeatsOf(r, lines[1..], seat)
  }

  lemma LineTallyMeans(r: Rules, line: Json)
    ensures LineTally(r, line) ==
      if Readable(r, line) then Counts(SeatsFrom(r, line, Standard), SeatsFrom(r, line, Prolite)) else Bad
  {
    hide Recurring, WholeNumber;
  }

  lemma {:induction false} SumMeans(r: Rules, lines: seq<Json>)
    requires forall i :: 0 <= i < |lines| ==> Readable(r, lines[i])
    ensures Sum(OfLine(r), lines) == Counts(SeatsOf(r, lines, Standard), SeatsOf(r, lines, Prolite))
  {
    hide Readable, SeatsFrom, LineTally;
    if |lines| > 0 {
      SumMeans(r, lines[1..]);
      LineTallyMeans(r, lines[0]);
      assert lines == [lines[0]] + lines[1..];
      SumSplits(OfLine(r), [lines[0]], lines[1..]);
      SumOfOne(OfLine(r), lines[0]);
    }
  }

  lemma UnreadableSpoils(r: Rules, lines: seq<Json>)
    ensures Sum(OfLine(r), lines).Bad? <==> exists i :: 0 <= i < |lines| && !Readable(r, lines[i])
  {
    hide Readable, SeatsFrom, LineTally;
    SumIsBad(OfLine(r), lines);
    forall i | 0 <= i < |lines| ensures OfLine(r)(lines[i]).Bad? <==> !Readable(r, lines[i]) {
      LineTallyMeans(r, lines[i]);
    }
  }

  /** All or nothing: the lines give a split exactly when every one is readable and some seat
      is there, and it is then the sum of all quantities of each type. */
  lemma AllOrNothing(r: Rules, body: Json)
    ensures RecurringComposition(r, body).Some? <==>
      Lines(body).Some? && (forall i :: 0 <= i < |Lines(body).value| ==> Readable(r, Lines(body).value[i]))
      && SeatsOf(r, Lines(body).value, Standard) + SeatsOf(r, Lines(body).value, Prolite) > 0
    ensures RecurringComposition(r, body).Some? ==>
      RecurringComposition(r, body) ==
      Some(Counts(SeatsOf(r, Lines(body).value, Standard), SeatsOf(r, Lines(body).value, Prolite)))
  {
    hide Readable, SeatsFrom, Lines;
    if Lines(body).Some? {
      var lines := Lines(body).value;
      UnreadableSpoils(r, lines);
      if forall i :: 0 <= i < |lines| ==> Readable(r, lines[i]) {
        SumMeans(r, lines);
      }
    }
  }

  // ---- bodies that differ in their lines only ------------------------------------------------------

  ghost predicate SameApartFromLines(a: Json, b: Json) {
    a.Object? && b.Object? && Lines(a).Some? && Lines(b).Some? &&
    forall key :: key != "lines" ==> Lookup(a.fields, key) == Lookup(b.fields, key)
  }

  lemma {:induction false} SumDecides(r: Rules, a: Json, b: Json)
    requires SameApartFromLines(a, b)
    requires Sum(OfLine(r), Lines(a).value) == Sum(OfLine(r), Lines(b).value)
    ensures SeatBreakdown(r, a) == SeatBreakdown(r, b) && UpcomingSeats(r, a) == UpcomingSeats(r, b)
  {
    hide Structured, Snapshot, RecurringComposition, Lines;
    LinesDecide(r, a, b);
    StructuredOutside(r, a, b);
    SnapshotOutside(r, a, b);
  }

  lemma LinesDecide(r: Rules, a: Json, b: Json)
    requires Lines(a).Some? && Lines(b).Some? && Sum(OfLine(r), Lines(a).value) == Sum(OfLine(r), Lines(b).value)
    ensures RecurringComposition(r, a) == RecurringComposition(r, b)
  {
    hide Lines, Sum, OfLine;
  }

  lemma StructuredOutside(r: Rules, a: Json, b: Json)
    requires SameApartFromLines(a, b)
    ensures Structured(r, a) == Structured(r, b)
  {
    SameOutside(a, b, "seat_quantities");
    SameOutside(a, b, "subscription_details");
    SameOutside(a, b, "metadata");
    hide Composition, MetadataComposition, At, SameApartFromLines;
  }

  lemma SnapshotOutside(r: Rules, a: Json, b: Json)
    requires SameApartFromLines(a, b)
    ensures Snapshot(r, a) == Snapshot(r, b)
  {
    SameOutside(a, b, "subscription_details");
    hide At, SameApartFromLines, PositiveQuantity;
  }

  lemma SameOutside(a: Json, b: Json, key: string)
    requires SameApartFromLines(a, b) && key != "lines"
    ensures At(a, key) == At(b, key)
  {
    assert Lookup(a.fields, key) == Lookup(b.fields, key);
  }

  /** The order of the lines is irrelevant. */
  lemma OrderIsIrrelevant(r: Rules, a: Json, b: Json)
    requires SameApartFromLines(a, b) && multiset(Lines(a).value) == multiset(Lines(b).value)
    ensures SeatBreakdown(r, a) == SeatBreakdown(r, b) && UpcomingSeats(r, a) == UpcomingSeats(r, b)
  {
    SumForgetsOrder(OfLine(r), Lines(a).value, Lines(b).value);
    SumDecides(r, a, b);
  }

  /** Two invoices' lines put together count as the sum of both, and either one spoils it. */
  lemma LinesAdd(r: Rules, a: seq<Json>, b: seq<Json>)
    ensures Sum(OfLine(r), a + b) == Plus(Sum(OfLine(r), a), Sum(OfLine(r), b))
    ensures Sum(OfLine(r), a + b).Bad? <==>
      (exists i :: 0 <= i < |a| && !Readable(r, a[i])) || (exists i :: 0 <= i < |b| && !Readable(r, b[i]))
  {
    SumSplits(OfLine(r), a, b);
    UnreadableSpoils(r, a);
    UnreadableSpoils(r, b);
  }

  function RecurringOnly(r: Rules, lines: seq<Json>): seq<Json> {
    if |lines| == 0 then []
    else RecurringOnly(r, lines[..|lines| - 1]) + if Recurring(r, lines[|lines| - 1]) then [lines[|lines| - 1]] else []
  }

  lemma {:induction false} OneOffLinesAddNothing(r: Rules, lines: seq<Json>)
    ensures Sum(OfLine(r), RecurringOnly(r, lines)) == Sum(OfLine(r), lines)
  {
    hide Recurring;
    if |lines| > 0 {
      var init, last := lines[..|lines| - 1], lines[|lines| - 1];
      OneOffLinesAddNothing(r, init);
      if Recurring(r, last) {
        SumSplits(OfLine(r), RecurringOnly(r, init), [last]);
        SumOfOne(OfLine(r), last);
      } else {
        assert RecurringOnly(r, lines) == RecurringOnly(r, init);
      }
    }
  }

  /** Prorations and one-off items may come and go. */
  lemma OneOffLinesAreIrrelevant(r: Rules, a: Json, b: Json)
    requires SameApartFromLines(a, b) && RecurringOnly(r, Lines(a).value) == RecurringOnly(r, Lines(b).value)
    ensures SeatBreakdown(r, a) == SeatBreakdown(r, b) && UpcomingSeats(r, a) == UpcomingSeats(r, b)
  {
    OneOffLinesAddNothing(r, Lines(a).value);
    OneOffLinesAddNothing(r, Lines(b).value);
    SumDecides(r, a, b);
  }

  /** In particular a line that is a proration can be added or taken away anywhere. */
  lemma ProrationsMayComeAndGo(r: Rules, a: Json, b: Json, before: seq<Json>, line: Json, after: seq<Json>)
    requires SameApartFromLines(a, b) && Truthy(At(line, "proration"))
    requires Lines(a).value == before + [line] + after && Lines(b).value == before + after
    ensures SeatBreakdown(r, a) == SeatBreakdown(r, b) && UpcomingSeats(r, a) == UpcomingSeats(r, b)
  {
    ProrationIsOneOff(r, line);
    RecurringOnlyOfSum(r, before + [line], after);
    RecurringOnlyOfSum(r, before, [line]);
    RecurringOnlyOfSum(r, before, after);
    assert RecurringOnly(r, before) + [] == RecurringOnly(r, before);
    hide RecurringOnly, SeatBreakdown, UpcomingSeats, Recurring;
    OneOffLinesAreIrrelevant(r, a, b);
  }

  lemma ProrationIsOneOff(r: Rules, line: Json)
    requires Truthy(At(line, "proration"))
    ensures RecurringOnly(r, [line]) == []
  {
    assert !Recurring(r, line);
    assert [line][..0] == [];
    assert RecurringOnly(r, []) == [];
  }

  lemma {:induction false} RecurringOnlyOfSum(r: Rules, a: seq<Json>, b: seq<Json>)
    ensures RecurringOnly(r, a + b) == RecurringOnly(r, a) + RecurringOnly(r, b)
    decreases |b|
  {
    hide Recurring;
    if |b| == 0 {
      assert a + b == a && RecurringOnly(r, []) == [];
    } else {
      var init := b[..|b| - 1];
      assert (a + b)[..|a + b| - 1] == a + init;
      RecurringOnlyOfSum(r, a, init);
    }
  }

  // ---- splitting a line --------------------------------------------------------------------------------

  function Assign(fields: seq<Field>, key: string, value: Json): seq<Field> {
    if |fields| == 0 then [Field(key, value)]
    else if fields[0].key == key then [Field(key, value)] + fields[1..]
    else [fields[0]] + Assign(fields[1..], key, value)
  }

  function WithQuantity(line: Json, n: nat): Json
    requires line.Object?
  {
    Object(Assign(line.fields, "quantity", Number(n as real)))
  }

  /** Recognising the product of a line never looks at its quantity. */
  ghost predicate QuantityBlind(r: Rules) {
    forall line: Json, n: nat :: line.Object? ==>
      r.classify(WithQuantity(line, n)) == r.classify(line)
      && r.looksLikeSeat(WithQuantity(line, n)) == r.looksLikeSeat(line)
  }

  lemma {:induction false} LookupAssigned(fields: seq<Field>, key: string, value: Json, other: string)
    ensures Lookup(Assign(fields, key, value), other) == if other == key then Some(value) else Lookup(fields, other)
  {
    if |fields| > 0 && fields[0].key != key {
      LookupAssigned(fields[1..], key, value, other);
    }
  }

  lemma AtWithQuantity(line: Json, n: nat, key: string)
    requires line.Object?
    ensures At(WithQuantity(line, n), key) == if key == "quantity" then Number(n as real) else At(line, key)
  {
    LookupAssigned(line.fields, "quantity", Number(n as real), key);
  }

  lemma RecurringIgnoresQuantity(r: Rules, line: Json, n: nat)
    requires line.Object?
    ensures Recurring(r, WithQuantity(line, n)) == Recurring(r, line)
  {
    assert WithQuantity(line, n).Object?;
    hide At, WithQuantity, Lookup;
    AtWithQuantity(line, n, "proration");
    AtWithQuantity(line, n, "type");
    AtWithQuantity(line, n, "subscription");
    AtWithQuantity(line, n, "subscription_item");
    AtWithQuantity(line, n, "price");
    AtWithQuantity(line, n, "plan");
    AtWithQuantity(line, n, "parent");
  }

  /** What a line contributes, given what is known of it and the quantity it reads as. */
  function TallyFor(recurring: bool, seat: Option<Seat>, looksLikeSeat: bool, n: nat): Tally {
    if !recurring || (seat.None? && !looksLikeSeat) then Counts(0, 0)
    else if seat.None? then Bad
    else Seats(seat.value, n)
  }

  lemma TalliesAdd(recurring: bool, seat: Option<Seat>, looksLikeSeat: bool, p: nat, q: nat)
    ensures TallyFor(recurring, seat, looksLikeSeat, p + q)
         == Plus(TallyFor(recurring, seat, looksLikeSeat, p), TallyFor(recurring, seat, looksLikeSeat, q))
  {
  }

  lemma WholeTally(r: Rules, line: Json, n: nat)
    requires PositiveQuantity(r, At(line, "quantity")) == Some(n)
    ensures LineTally(r, line) == TallyFor(Recurring(r, line), r.classify(line), r.looksLikeSeat(line), n)
  {
    hide Recurring, WholeNumber;
  }

  lemma PartTally(r: Rules, line: Json, n: nat)
    requires line.Object? && QuantityBlind(r) && n > 0
    ensures LineTally(r, WithQuantity(line, n))
      == TallyFor(Recurring(r, line), r.classify(line), r.looksLikeSeat(line), n)
  {
    hide Recurring;
    RecurringIgnoresQuantity(r, line, n);
    AtWithQuantity(line, n, "quantity");
    assert (n as real).Floor == n;
    assert PositiveQuantity(r, Number(n as real)) == Some(n);
    WholeTally(r, WithQuantity(line, n), n);
  }

  lemma PartsOfALine(r: Rules, line: Json, p: nat, q: nat)
    requires QuantityBlind(r) && line.Object? && p > 0 && q > 0
    requires PositiveQuantity(r, At(line, "quantity")) == Some(p + q)
    ensures LineTally(r, line) == Plus(LineTally(r, WithQuantity(line, p)), LineTally(r, WithQuantity(line, q)))
  {
    WholeTally(r, line, p + q);
    PartTally(r, line, p);
    PartTally(r, line, q);
    hide *;
    TalliesAdd(Recurring(r, line), r.classify(line), r.looksLikeSeat(line), p, q);
  }

  lemma SumOfParts(f: Json -> Tally, before: seq<Json>, x: Json, u: Json, v: Json, after: seq<Json>)
    requires f(x) == Plus(f(u), f(v))
    ensures Sum(f, before + [x] + after) == Sum(f, before + [u, v] + after)
  {
    hide Sum, Plus;
    SumAround(f, before, x, after);
    SumAround(f, before, u, [v] + after);
    assert before + [u] + ([v] + after) == before + [u, v] + after;
    SumAround(f, before, v, after);
    assert before + [v] + after == before + ([v] + after);
    PlusIsAssociative(f(u), f(v), Sum(f, before + after));
  }

  /** Writing a line of p + q seats as two lines of p and q seats changes nothing. */
  lemma SplittingALine(r: Rules, a: Json, b: Json, before: seq<Json>, line: Json, after: seq<Json>, p: nat, q: nat)
    requires QuantityBlind(r) && line.Object? && p > 0 && q > 0
    requires PositiveQuantity(r, At(line, "quantity")) == Some(p + q)
    requires SameApartFromLines(a, b)
    requires Lines(a).value == before + [line] + after
    requires Lines(b).value == before + [WithQuantity(line, p), WithQuantity(line, q)] + after
    ensures SeatBreakdown(r, a) == SeatBreakdown(r, b) && UpcomingSeats(r, a) == UpcomingSeats(r, b)
  {
    PartsOfALine(r, line, p, q);
    SumOfParts(OfLine(r), before, line, WithQuantity(line, p), WithQuantity(line, q), after);
    SumDecides(r, a, b);
  }

  // ---- the two entry points --------------------------------------------------------------------------------

  /** A known split is complete and its total is what the other entry point reports; without
      one there is only the metadata snapshot, and no typed number at all. */
  lemma EntryPointsAgree(r: Rules, body: Json)
    ensures var b := SeatBreakdown(r, body);
      && b.total == UpcomingSeats(r, body)
      && (b.known ==> b.standard.Some? && b.prolite.Some? && b.total == Some(b.standard.value + b.prolite.value)
                      && b.total.value > 0 && b.source != NoSource)
      && (!b.known ==> b.standard.None? && b.prolite.None? && b.source == NoSource
                       && b.total == (if body.Object? then Snapshot(r, body) else None))
  {
    StructuredIsCapacity(r, body);
    hide Structured, Snapshot, Lines;
  }

  lemma StructuredIsCapacity(r: Rules, body: Json)
    ensures var (counts, source) := Structured(r, body);
      (counts.Some? <==> source != NoSource) && (counts.Some? ==> counts.value.Counts? && Total(counts.value) > 0)
  {
    hide Entries, AliasQuantity;
  }

  /** A split that was read but is wrong in one entry is not used in part: the evaluator falls
      through to the next candidate. */
  lemma SpoiledEntrySpoilsTheList(r: Rules, value: Json, i: nat)
    requires Entries(r, value).Some? && i < |Entries(r, value).value|
    requires EntryTally(r, Entries(r, value).value[i]).Bad?
    ensures Composition(r, value).None?
  {
    BadStaysBad(OfEntry(r), Entries(r, value).value, i);
  }
}
